/**
  The trust store of the bot: a map from chat user id to a trusted flag.
  An empty store means open trust: everybody is trusted. Once the store holds
  any entry, only users whose entry is `true` are trusted.
*/
module TrustStore {

  /** `isTrusted`: open trust on an empty store, otherwise an explicit `true` entry. */
  function IsTrusted(trusted: map<string, bool>, userId: string): (r: bool)
    ensures trusted == map[] ==> r
    ensures trusted != map[] ==> (r <==> userId in trusted && trusted[userId])
  {
    if |trusted| == 0 then true
    else userId in trusted && trusted[userId]
  }

  /** Setting an entry decides that user's trust; nobody else's trust depends on the old map being empty. */
  lemma SetEntry(trusted: map<string, bool>, uid: string, value: bool, u: string)
    ensures IsTrusted(trusted[uid := value], uid) == value
    ensures u != uid ==> (IsTrusted(trusted[uid := value], u) <==> u in trusted && trusted[u])
  {
    assert uid in trusted[uid := value];
  }

  /**
    On an open store, the first trust leaves only that user trusted and the first
    distrust leaves nobody trusted: the store is closed from then on.
  */
  lemma FirstEntryClosesOpenTrust(uid: string, value: bool, u: string)
    ensures IsTrusted(map[][uid := value], u) <==> (u == uid && value)
  {
    SetEntry(map[], uid, value, u);
  }

  /** The entries written by a sequence of trust (`true`) and distrust (`false`) commands, in order. */
  function Apply(trusted: map<string, bool>, updates: seq<(string, bool)>): (r: map<string, bool>)
    ensures trusted.Keys <= r.Keys
    ensures updates != [] ==> r != map[]
    decreases updates
  {
    if updates == [] then trusted
    else
      var r := Apply(trusted[updates[0].0 := updates[0].1], updates[1..]);
      assert updates[0].0 in r;
      r
  }

  /** The value of the last update for `u`, if any update touches `u`. */
  function LastFor(updates: seq<(string, bool)>, u: string): (r: (bool, bool))
    ensures r.0 <==> exists k :: 0 <= k < |updates| && updates[k].0 == u
  {
    if updates == [] then (false, false)
    else
      var last := updates[|updates| - 1];
      if last.0 == u then (true, last.1)
      else
        var r := LastFor(updates[..|updates| - 1], u);
        assert forall k :: 0 <= k < |updates| - 1 ==> updates[..|updates| - 1][k] == updates[k];
        r
  }

  lemma {:induction false} ApplySnoc(trusted: map<string, bool>, updates: seq<(string, bool)>, x: (string, bool))
    ensures Apply(trusted, updates + [x]) == Apply(trusted, updates)[x.0 := x.1]
    decreases updates
  {
    if updates != [] {
      assert (updates + [x])[1..] == updates[1..] + [x];
      ApplySnoc(trusted[updates[0].0 := updates[0].1], updates[1..], x);
    }
  }

  /**
    After any non-empty sequence of trust and distrust commands, a user's trust
    is decided by the last command about that user alone; a user no command
    named is trusted exactly when the original store trusted them explicitly.
  */
  lemma {:induction false} LastUpdateWins(trusted: map<string, bool>, updates: seq<(string, bool)>, u: string)
    requires updates != []
    ensures LastFor(updates, u).0 ==> IsTrusted(Apply(trusted, updates), u) == LastFor(updates, u).1
    ensures !LastFor(updates, u).0 ==> (IsTrusted(Apply(trusted, updates), u) <==> u in trusted && trusted[u])
  {
    var init := updates[..|updates| - 1];
    var last := updates[|updates| - 1];
    assert updates == init + [last];
    ApplySnoc(trusted, init, last);
    SetEntry(Apply(trusted, init), last.0, last.1, u);
    if last.0 != u && init != [] {
      LastUpdateWins(trusted, init, u);
    }
  }
}
