/**
 * The in-memory webhook store of mhook/webhookstore.go: a two-level table
 * owner -> URL -> webhook.  The functions `AddTo` and `DeleteFrom` say what an
 * update does to the table; the class `WebhookStore` performs the updates in
 * place, as the Go methods do on their nested map.
 */
module MhookStore {
  import opened Results
  import opened Webhooks

  /** owner -> webhook URL -> webhook */
  type Table = map<string, map<string, Webhook>>

  const ErrAlreadyExists: Error := PlainError("webhook already exists")
  const ErrOwnerNotFound: Error := PlainError("owner not found")
  const ErrWebhookNotFound: Error := PlainError("webhook not found")

  /** The outcome of one update: the error it returns and the table after it. */
  datatype Update = Update(err: Option<Error>, after: Table)

  /**
   * The webhooks an owner holds.  An owner without an inner map reads as an
   * empty one, as a nil Go map does.
   */
  function Owned(t: Table, owner: string): map<string, Webhook>
  {
    if owner in t then t[owner] else map[]
  }

  /** Every webhook is filed under its own `Config.URL`. */
  ghost predicate KeyedByURL(t: Table)
  {
    forall o, u :: o in t && u in t[o] ==> t[o][u].config.url == u
  }

  /**
   * What `Add(owner, w)` does to table `t`: it creates the owner's inner map
   * when missing, refuses a URL the owner already holds, and otherwise files
   * `w` under its URL.  No other owner is touched.
   */
  function AddTo(t: Table, owner: string, w: Webhook): (u: Update)
    ensures u.err.Some? <==> w.config.url in Owned(t, owner)
    ensures u.err.Some? ==> u.err == Some(ErrAlreadyExists) && u.after == t
    ensures u.err.None? ==> Owned(u.after, owner) == Owned(t, owner)[w.config.url := w]
    ensures forall o :: o != owner ==> (o in u.after <==> o in t)
    ensures forall o :: o != owner && o in t ==> u.after[o] == t[o]
    ensures owner in u.after
    ensures KeyedByURL(t) ==> KeyedByURL(u.after)
  {
    var inner := Owned(t, owner);
    var created := t[owner := inner];
    if w.config.url in inner then Update(Some(ErrAlreadyExists), created)
    else Update(None, created[owner := inner[w.config.url := w]])
  }

  /**
   * What `Delete(owner, url)` does to table `t`: an owner without an inner map
   * is "owner not found", a URL the owner does not hold is "webhook not
   * found", and otherwise exactly that one entry goes.  The owner's inner map
   * stays in place even when it becomes empty.
   */
  function DeleteFrom(t: Table, owner: string, url: string): (u: Update)
    ensures owner !in t ==> u == Update(Some(ErrOwnerNotFound), t)
    ensures owner in t && url !in t[owner] ==> u == Update(Some(ErrWebhookNotFound), t)
    ensures owner in t && url in t[owner] ==>
              && u.err.None?
              && owner in u.after
              && Owned(u.after, owner).Keys == Owned(t, owner).Keys - {url}
              && forall v :: v in Owned(u.after, owner) ==> Owned(u.after, owner)[v] == Owned(t, owner)[v]
    ensures forall o :: o != owner ==> (o in u.after <==> o in t)
    ensures forall o :: o != owner && o in t ==> u.after[o] == t[o]
    ensures KeyedByURL(t) ==> KeyedByURL(u.after)
  {
    if owner !in t then Update(Some(ErrOwnerNotFound), t)
    else if url !in t[owner] then Update(Some(ErrWebhookNotFound), t)
    else Update(None, t[owner := t[owner] - {url}])
  }

  /**
   * `r` lists the webhooks of map `m` exactly: as many entries as `m` has
   * URLs, each one the webhook filed under its URL, none twice, in any order.
   */
  ghost predicate ListsExactly(r: seq<Webhook>, m: map<string, Webhook>)
  {
    && |r| == |m|
    && (forall i :: 0 <= i < |r| ==> r[i].config.url in m && m[r[i].config.url] == r[i])
    && (forall i, j :: 0 <= i < j < |r| ==> r[i] != r[j])
    && (forall u :: u in m ==> m[u] in r)
  }

  class WebhookStore {
    var store: Table

    ghost predicate Valid()
      reads this
    {
      KeyedByURL(store)
    }

    /** `NewWebhookStore`: an empty table, so every owner holds nothing. */
    constructor ()
      ensures Valid()
      ensures store == map[]
      ensures forall owner :: Owned(store, owner) == map[]
    {
      store := map[];
    }

    method Add(owner: string, w: Webhook) returns (err: Option<Error>)
      requires Valid()
      modifies this
      ensures Valid()
      ensures Update(err, store) == AddTo(old(store), owner, w)
    {
      if owner !in store {
        store := store[owner := map[]];
      }
      if w.config.url in store[owner] {
        return Some(ErrAlreadyExists);
      }
      store := store[owner := store[owner][w.config.url := w]];
      return None;
    }

    method Delete(owner: string, url: string) returns (err: Option<Error>)
      requires Valid()
      modifies this
      ensures Valid()
      ensures Update(err, store) == DeleteFrom(old(store), owner, url)
    {
      if owner !in store {
        return Some(ErrOwnerNotFound);
      }
      if url !in store[owner] {
        return Some(ErrWebhookNotFound);
      }
      store := store[owner := store[owner] - {url}];
      return None;
    }

    /**
     * The owner's webhooks as a list, in the order a walk over the inner map
     * happens to visit them; an owner without a map gets the empty list.
     * This store never reports an error.
     */
    method AllWebhooks(owner: string) returns (r: seq<Webhook>, err: Option<Error>)
      requires Valid()
      ensures ListsExactly(r, Owned(store, owner))
      ensures err.None?
    {
      err := None;
      if owner !in store {
        return [], err;
      }
      var inner := store[owner];
      r := [];
      var remaining := inner.Keys;
      while remaining != {}
        invariant remaining <= inner.Keys
        invariant |r| + |remaining| == |inner|
        invariant forall i :: 0 <= i < |r| ==>
                    r[i].config.url in inner && r[i].config.url !in remaining && inner[r[i].config.url] == r[i]
        invariant forall i, j :: 0 <= i < j < |r| ==> r[i] != r[j]
        invariant forall u :: u in inner && u !in remaining ==> inner[u] in r
        decreases remaining
      {
        var u :| u in remaining;
        r := r + [inner[u]];
        remaining := remaining - {u};
      }
    }
  }

  /**
   * A successful `Add` leaves the webhook in its owner's list exactly once:
   * no other URL of that owner maps to the same webhook.
   */
  lemma AddedOnce(t: Table, owner: string, w: Webhook)
    requires KeyedByURL(t)
    requires AddTo(t, owner, w).err.None?
    ensures var m := Owned(AddTo(t, owner, w).after, owner);
            && w.config.url in m && m[w.config.url] == w
            && forall u :: u in m && m[u] == w ==> u == w.config.url
  {
  }

  /** The same URL may be held by two different owners at once. */
  lemma SameURLTwoOwners(t: Table, o1: string, o2: string, w: Webhook)
    requires o1 != o2
    requires w.config.url !in Owned(t, o1) && w.config.url !in Owned(t, o2)
    ensures var t1 := AddTo(t, o1, w);
            var t2 := AddTo(t1.after, o2, w);
            && t1.err.None? && t2.err.None?
            && Owned(t2.after, o1)[w.config.url] == w
            && Owned(t2.after, o2)[w.config.url] == w
  {
  }

  /**
   * Deleting the URL just added gives every owner back the webhooks it held
   * before (only an empty inner map for a new owner is left behind).
   */
  lemma AddThenDelete(t: Table, owner: string, w: Webhook)
    requires AddTo(t, owner, w).err.None?
    ensures var d := DeleteFrom(AddTo(t, owner, w).after, owner, w.config.url);
            && d.err.None?
            && forall o :: Owned(d.after, o) == Owned(t, o)
  {
  }

  /** Any two listings of the same map hold the same webhooks the same number of times. */
  lemma {:induction false} ListingsArePermutations(r1: seq<Webhook>, r2: seq<Webhook>, m: map<string, Webhook>)
    requires ListsExactly(r1, m) && ListsExactly(r2, m)
    ensures multiset(r1) == multiset(r2)
  {
    forall x ensures multiset(r1)[x] == multiset(r2)[x] {
      DistinctCount(r1, x);
      DistinctCount(r2, x);
      if x in r1 {
        var i :| 0 <= i < |r1| && r1[i] == x;
        assert m[x.config.url] == x;
      }
      if x in r2 {
        var i :| 0 <= i < |r2| && r2[i] == x;
        assert m[x.config.url] == x;
      }
    }
  }

  /** In a list without repetitions every element occurs at most once. */
  lemma {:induction false} DistinctCount(r: seq<Webhook>, x: Webhook)
    requires forall i, j :: 0 <= i < j < |r| ==> r[i] != r[j]
    ensures multiset(r)[x] == if x in r then 1 else 0
  {
    if r != [] {
      var rest := r[1..];
      assert r == [r[0]] + rest;
      DistinctCount(rest, x);
      if r[0] == x {
        assert x !in rest;
      }
    }
  }
}
