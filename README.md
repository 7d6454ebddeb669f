# webpa-common: webhook subscriptions and three decision routines, in Dafny

This project models four parts of the Go library webpa-common and proves properties of each.

- The in-memory webhook subscription subsystem of package `mhook`.
  - `webhookStore` is a two-level table, owner → URL → webhook. It adds (refusing a URL the owner already holds), deletes (with separate "owner not found" and "webhook not found" errors) and lists.
  - `service` adds a webhook to the store. After each successful add it hands a copy of the owner's current list to a callback.
  - The request decoding of `transport.go` validates and normalises webhooks (`validateWebhook`). It also resolves the owner (`getOwner`), falls back from one object to the first element of a list (`getFirstFromList`), and obfuscates secrets.
- `SignalWait` in package `server` returns the first signal from a wait set, or nothing when the channel closes.
- The nil-safe output, format and level choices of `logging.Options`.
- The service-discovery backend ladder of `servicecfg.NewEnvironment`: fixed list, then Zookeeper, then Consul, then an error.

Files: `results.dfy` (Option/Result), `webhook.dfy` (the webhook record and mhook errors), `webhookstore.dfy`, `transport.dfy`, `service.dfy`, `signalwait.dfy`, `logging_options.dfy`, `environment.dfy`.

How the model is built:

- The store is a class whose nested map is updated in place. The functions `AddTo` and `DeleteFrom` state what each update does to the table. The class methods are proved to perform exactly those updates and to keep every webhook filed under its own URL.
- Listing an owner's webhooks walks the inner map in an arbitrary order. The result is specified by `ListsExactly`: as many entries as URLs, each the webhook filed under its URL, none twice. A lemma shows that any two such listings are permutations of each other.
- The service's callback is represented by the record of the lists handed to it (`Service.delivered`).
- `validateWebhook` updates a `*Webhook` in place. Here it returns the updated value.
  - When the host split fails, the returned value still carries the defaulted device matcher, because the Go code fills that in before the split.
- After a successful `Delete`, the owner keeps its (possibly empty) inner map. Deleting any URL of that owner afterwards therefore reports "webhook not found", not "owner not found".
- Library calls are parameters: `net.SplitHostPort`, the JSON decoders, the YAML decoder, the file and body reads, the bascule authentication in the request context, and the configuration unmarshaller. So are the defaults that `Options.vnodeCount()` and `Options.defaultScheme()` apply.
- `time.Duration` values are integers of nanoseconds.

## Model

| member | source | states |
|---|---|---|
| `MhookStore.AddTo` | mhook/webhookstore.go:25-45 | The add is refused with "webhook already exists" exactly when the owner already holds the URL, and then the table is unchanged. Otherwise the owner's map gains the webhook under its URL. The owner always has a map afterwards. No other owner is added, removed or changed. Every webhook stays filed under its own URL. |
| `MhookStore.DeleteFrom` | mhook/webhookstore.go:47-65 | An owner without a map gives "owner not found" and a missing URL gives "webhook not found"; neither changes the table. Otherwise exactly that URL is removed, the owner keeps its map, and the owner's other URLs keep their webhooks. No other owner is added, removed or changed. |
| `MhookStore.WebhookStore.constructor` | mhook/webhookstore.go:19-23 | A new store is empty, so every owner holds no webhooks. |
| `MhookStore.WebhookStore.Add` | mhook/webhookstore.go:25-45 | Performs `AddTo` in place: it creates the owner's map when missing, then checks for the URL, then inserts. |
| `MhookStore.WebhookStore.Delete` | mhook/webhookstore.go:47-65 | Performs `DeleteFrom` in place, with the same two error checks in the same order. |
| `MhookStore.WebhookStore.AllWebhooks` | mhook/webhookstore.go:67-84 | Returns exactly the owner's webhooks: one entry per URL, each the webhook filed there, no duplicates, any order. An owner without a map gets the empty list. The error is always nil. |
| `MhookStore.AddedOnce` | mhook/webhookstore.go:29-44 | After a successful add, the webhook is in the owner's map under its URL and under no other URL. |
| `MhookStore.SameURLTwoOwners` | mhook/webhookstore.go:30-40 | One URL can be added for two different owners, and both then hold it. |
| `MhookStore.AddThenDelete` | mhook/webhookstore.go:25-65 | Deleting the URL just added succeeds and gives every owner back exactly the webhooks it held before the add. |
| `MhookStore.ListingsArePermutations` | mhook/webhookstore.go:77-83 | Two listings of the same owner's map hold the same webhooks the same number of times; only the order is unspecified. |
| `MhookTransport.TrimSpaceEmpty` | mhook/transport.go:133-135 | A URL is rejected as empty after trimming exactly when every character in it is white space. |
| `MhookTransport.GetOwner` | mhook/transport.go:94-110 | The owner is the token's principal for "jwt" and "basic" tokens and "" for any other token type. It is the `X-Xmidt-Client-Id` header when there is no authentication. |
| `MhookTransport.AuthenticatedOwnerIgnoresHeaders` | mhook/transport.go:94-110 | With authentication present, the owner does not depend on the request headers. |
| `MhookTransport.DecodeGetAllWebhooksRequest` | mhook/transport.go:41-45 | The list request names the owner that `getOwner` resolves. |
| `MhookTransport.GetFirstFromList` | mhook/transport.go:112-124 | A decoding error is passed on. An empty list is status 400 "no webhooks in request data list". Otherwise the result is element 0. |
| `MhookTransport.Obfuscated` | mhook/transport.go:126-130 | The secret becomes "<obfuscated>" and every other field is unchanged. |
| `MhookTransport.ObfuscateSecrets` | mhook/transport.go:126-130 | Every element of the slice, in place, is its old value with only the secret replaced. The length is unchanged. |
| `MhookTransport.Validated` | mhook/transport.go:132-163 | No error exactly when the trimmed URL is non-empty, the events are non-empty, and no needed host split fails. A blank URL gives 400 "invalid Config URL" and an empty event list gives 400 "invalid events"; both leave the webhook untouched. An empty device matcher becomes `[".*"]`. The address is set from the origin's host only when it is empty and the origin is not. On a failed split the split's error is returned and the address is kept. On success the duration is the 5-minute default; on an error it is kept. Config, events, failure URL and expiry are never changed. |
| `MhookTransport.ValidateWebhook` | mhook/transport.go:132-163 | The in-place updates, in the Go order, return exactly the webhook and error that `Validated` describes. |
| `MhookTransport.Accepted` | mhook/transport.go:77-85 | A decoded webhook is refused with validation's error exactly when validation refuses it. Otherwise the request is the validated webhook under the owner `getOwner` resolves. |
| `MhookTransport.DecodeAddWebhookRequest` | mhook/transport.go:60-86 | A body-read error is returned. A single-object decode is preferred; when it fails, the list fallback is used and its error returned. The decoded webhook, from whichever path, gives exactly the request or error `Accepted` describes for it. An accepted request carries the resolved owner and a validated webhook. |
| `MhookService.Service.constructor` | mhook/service.go:86-97 | A service over a valid store has delivered nothing to its callback yet. |
| `MhookService.Service.Add` | mhook/service.go:35-54 | The store is updated as `AddTo` says. On a store error the error is returned and the callback is not run. On success the callback runs exactly once, with a list of exactly the owner's current webhooks. |
| `MhookService.Service.AllWebhooks` | mhook/service.go:56-77 | The copied list holds exactly the webhooks the store holds for the owner: the same length and the same elements. |
| `MhookService.Service.AddWebhookFromYaml` | mhook/service.go:100-119 | A read or decode error is returned with nothing added and nothing delivered. Otherwise the decoded webhook is added under owner "yaml_owner" as `AddTo` says. On a store error nothing is delivered. On success the callback gets exactly one list, holding exactly the webhooks of "yaml_owner". |
| `MhookService.ValidateConfig` | mhook/service.go:131-135 | A zero watch interval becomes 5 seconds. Any other interval is kept. |
| `MhookService.TwoWebhooksForOneOwner` | mhook/service_test.go:54-96 | Two webhooks with different URLs added for one owner of a fresh service are listed as two entries. |
| `ServerSignals.SignalWait` | server/signalWait.go:27-43 | The result is the first signal in the stream that is in the wait set, and it is a member of that set. Every earlier signal is logged as ignored, one entry each, in order. A stream that ends without a match gives nil, with every signal logged. |
| `ServerSignals.WaitOnNothing` | server/signalWait_test.go:51-87 | With an empty wait set, no signal is returned; only the end of the stream ends the wait, with nil. |
| `ServerSignals.InterruptThenKill` | server/signalWait_test.go:14-49 | Waiting on Kill, the stream Interrupt, Kill yields Kill, with Interrupt ignored. |
| `LoggingOptions.Output` | logging/options.go:39-50 | Standard output exactly for nil options, an empty file or "stdout". Otherwise a rolling file whose name, maximum size, age and backups are the options' own. |
| `LoggingOptions.LoggerFactory` | logging/options.go:52-58 | JSON exactly when options are present and `JSON` is set; logfmt otherwise. |
| `LoggingOptions.Level` | logging/options.go:60-66 | "" for nil options, the configured level otherwise. |
| `LoggingOptions.NilOptionsAreZeroOptions` | logging/options.go:39-66 | Nil options and zero-valued options make the same three choices. |
| `ServiceCfg.NewEnvironment` | service/servicecfg/environment.go:23-69 | A decoding error is returned before any backend is chosen. A non-empty fixed list is always chosen. Zookeeper is chosen exactly when there is no fixed list and it is configured. Consul is chosen exactly when neither of those applies and it is configured. Otherwise the result is "No service discovery configured". The fixed environment gets the base options, the caller's options and the fixed instances. Zookeeper gets the logger (the default one for nil), its settings and the base options plus the caller's. Consul gets the logger, the raw configured default scheme, its settings and the same options. The base options are the accessor factory and the default scheme, before the caller's. A failure's message is the decoder's text or "No service discovery configured". |
| `ServiceCfg.FixedIgnoresOtherBackends` | service/servicecfg/environment.go:42-56 | With a fixed list, the Zookeeper and Consul settings do not affect the result. |
| `ServiceCfg.ZookeeperBeforeConsul` | service/servicecfg/environment.go:58-66 | Without a fixed list, configured Zookeeper settings win whatever the Consul settings are. |

## Left out

- The device session, registry and rehasher are not part of this model. Their implementation files are not among the sources modelled.
- Concurrency: the `sync.RWMutex` of `webhookStore` and the blocking receive of `SignalWait`. The store is single-threaded, and the signal channel is the finite sequence delivered before it closes.
- Pointer aliasing: the store keeps `*Webhook` pointers, and `validateWebhook` and `obfuscateSecrets` update through pointers or shared slices. Webhooks are values here, so a later change made through a pointer the caller still holds is not reflected in the store.
- Printing and logging: the `fmt.Printf` and `fmt.Println` calls and the go-kit logger calls. The one exception is the "ignoring signal" entries of `SignalWait`, which are kept as the list of ignored signals.
- Library calls become parameters: JSON and YAML decoding, `ioutil.ReadFile`/`ReadAll`, `net.SplitHostPort`, bascule's token lookup, `sd.FixedInstancer`, `service.NewEnvironment`, and the Zookeeper and Consul factories. For the factories the model states which constructor is called with which arguments. The environment the factory builds, and any error it returns, are not modelled.
- `MhookTransport.GetOwner`: `Header.Get` canonicalises header names case-insensitively. The model looks up the exact name `X-Xmidt-Client-Id`.
- `MhookTransport.TrimSpaceEmpty`: strings are sequences of characters, so Go's UTF-8 decoding of invalid byte sequences is not modelled.
- `MhookService.Service.AllWebhooks`: the store in this package never returns an error from `AllWebhooks`, so the service's propagation of such an error (a nil list) cannot happen. The branch is proved unreachable rather than modelled.
- The `recover` in `service.AllWebhooks`, `Initialize`, `newLoggerGroup`, `mhook/watch.go` (the `Watch` fan-out and the list-size gauge), and the metric tables. The callback is only the record of the lists it receives.
- HTTP plumbing: `encodeGetAllWebhooksResponse`, `encodeAddWebhookResponse`, `errorEncoder`, `mhook/endpoint.go`, `mhook/handler.go` and `transport/transporthttp/getBody.go`.
- `server/viper.go` (configuration, files and profiling) and `basculemetrics/metricListener.go` (wall-clock metrics).
- The `Webhook` struct is declared in a file that is not part of this model. Its fields are the ones `mhook/service_test.go` fills in. `Until` is an opaque instant that no modelled code reads.
- `ServerSignals.Signal`: `os.Signal` is open-ended. The model has four named signals and numbered others.
