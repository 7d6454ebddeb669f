/**
 * The webhook service of mhook/service.go: it adds webhooks to a store and,
 * after every successful add, hands the owner's current list to a callback.
 * The callback is represented by the record of the lists it has been handed.
 */
module MhookService {
  import opened Results
  import opened Webhooks
  import opened MhookStore

  /** The owner every webhook read from a YAML file is added under. */
  const YamlOwner: string := "yaml_owner"

  /** The watch interval `validateConfig` fills in: five seconds. */
  const DefaultWatchUpdateInterval: int := 5 * Second

  class Service {
    const store: WebhookStore
    /** The lists handed to the callback so far, oldest first. */
    var delivered: seq<seq<Webhook>>

    ghost predicate Valid()
      reads this, store
    {
      store.Valid()
    }

    constructor (store: WebhookStore)
      requires store.Valid()
      ensures Valid()
      ensures this.store == store && delivered == []
    {
      this.store := store;
      delivered := [];
    }

    /**
     * Add a webhook for an owner.  A store error is returned and the callback
     * is not run; on success the callback runs once, with a copy of the
     * owner's list as it now stands.
     */
    method Add(owner: string, w: Webhook) returns (err: Option<Error>)
      requires Valid()
      modifies this, store
      ensures Valid()
      ensures Update(err, store.store) == AddTo(old(store.store), owner, w)
      ensures err.Some? ==> delivered == old(delivered)
      ensures err.None? ==>
                && |delivered| == |old(delivered)| + 1
                && delivered[..|old(delivered)|] == old(delivered)
                && ListsExactly(delivered[|old(delivered)|], Owned(store.store, owner))
    {
      err := store.Add(owner, w);
      if err.Some? {
        return err;
      }
      var all, listErr := AllWebhooks(owner);
      if listErr.Some? {
        // The store never reports an error when listing.
        assert false;
      }
      var webhooks := new Webhook[|all|];
      for i := 0 to |all|
        modifies webhooks
        invariant webhooks[..i] == all[..i]
      {
        webhooks[i] := all[i];
      }
      assert webhooks[..] == all;
      delivered := delivered + [webhooks[..]];
      return None;
    }

    /** The owner's webhooks, copied element by element out of the store's list. */
    method AllWebhooks(owner: string) returns (r: seq<Webhook>, err: Option<Error>)
      requires Valid()
      ensures ListsExactly(r, Owned(store.store, owner))
      ensures err.None?
    {
      var webhooks, storeErr := store.AllWebhooks(owner);
      if storeErr.Some? {
        // The store never reports an error when listing.
        assert false;
      }
      var copied := new Webhook[|webhooks|];
      for i := 0 to |webhooks|
        invariant copied[..i] == webhooks[..i]
      {
        copied[i] := webhooks[i];
      }
      return copied[..], None;
    }

    /**
     * `AddWebhookFromYaml`: read the file, decode one webhook from it and add
     * that webhook under the YAML owner.  A read or decode error is returned
     * with nothing added.
     */
    method AddWebhookFromYaml(file: Result<seq<bv8>, Error>, decode: seq<bv8> -> Result<Webhook, Error>)
      returns (err: Option<Error>)
      requires Valid()
      modifies this, store
      ensures Valid()
      ensures file.Failure? ==> err == Some(file.error) && store.store == old(store.store) && delivered == old(delivered)
      ensures file.Success? && decode(file.value).Failure? ==>
                err == Some(decode(file.value).error) && store.store == old(store.store) && delivered == old(delivered)
      ensures file.Success? && decode(file.value).Success? ==>
                && Update(err, store.store) == AddTo(old(store.store), YamlOwner, decode(file.value).value)
                && (err.Some? ==> delivered == old(delivered))
                && (err.None? ==>
                      && |delivered| == |old(delivered)| + 1
                      && delivered[..|old(delivered)|] == old(delivered)
                      && ListsExactly(delivered[|old(delivered)|], Owned(store.store, YamlOwner)))
    {
      if file.Failure? {
        return Some(file.error);
      }
      var webhook := decode(file.value);
      if webhook.Failure? {
        return Some(webhook.error);
      }
      err := Add(YamlOwner, webhook.value);
    }
  }

  /** The service's configuration; `validateConfig` updates it through a pointer. */
  class WatchConfig {
    var webhooks: seq<Webhook>
    /** A `time.Duration`, in nanoseconds. */
    var watchUpdateInterval: int

    constructor (webhooks: seq<Webhook>, watchUpdateInterval: int)
      ensures this.webhooks == webhooks && this.watchUpdateInterval == watchUpdateInterval
    {
      this.webhooks := webhooks;
      this.watchUpdateInterval := watchUpdateInterval;
    }
  }

  /** `validateConfig`: a zero watch interval becomes five seconds; any other is kept. */
  method ValidateConfig(cfg: WatchConfig)
    modifies cfg
    ensures old(cfg.watchUpdateInterval) == 0 ==> cfg.watchUpdateInterval == DefaultWatchUpdateInterval
    ensures old(cfg.watchUpdateInterval) != 0 ==> cfg.watchUpdateInterval == old(cfg.watchUpdateInterval)
    ensures cfg.webhooks == old(cfg.webhooks)
  {
    if cfg.watchUpdateInterval == 0 {
      cfg.watchUpdateInterval := DefaultWatchUpdateInterval;
    }
  }

  /**
   * The scenario of mhook/service_test.go: two webhooks with different URLs
   * added for one owner of a fresh service are both listed.
   */
  method TwoWebhooksForOneOwner(w1: Webhook, w2: Webhook) returns (count: nat)
    requires w1.config.url != w2.config.url
    ensures count == 2
  {
    var store := new WebhookStore();
    var service := new Service(store);
    var err1 := service.Add("owner1", w1);
    assert err1.None?;
    var err2 := service.Add("owner1", w2);
    assert err2.None?;
    var all, err := service.AllWebhooks("owner1");
    assert Owned(store.store, "owner1").Keys == {w1.config.url, w2.config.url};
    count := |all|;
  }
}
