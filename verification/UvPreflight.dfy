/** Silent assertions that find out which of a list of credentials a device holds, before a ceremony proper. */
module UvPreflight {
  import opened Wrappers
  import opened Bytes
  import opened AuthenticatorInfo
  import opened UvChannel

  type CredentialId = seq<byte>

  /** Credential ids that the device could hold. */
  function NotOversized(info: Info, ids: seq<CredentialId>): seq<CredentialId> {
    if ids == [] then []
    else if info.maxCredentialIdLength.Some? && |ids[0]| > info.maxCredentialIdLength.value then NotOversized(info, ids[1..])
    else [ids[0]] + NotOversized(info, ids[1..])
  }

  lemma {:induction false} NotOversizedIff(info: Info, ids: seq<CredentialId>, id: CredentialId)
    ensures id in NotOversized(info, ids) <==>
              id in ids && (info.maxCredentialIdLength.Some? ==> |id| <= info.maxCredentialIdLength.value)
  {
    if ids != [] {
      NotOversizedIff(info, ids[1..], id);
    }
  }

  /** The order and the number of times that ids occur stay as they are. */
  lemma {:induction false} NotOversizedInOrder(info: Info, front: seq<CredentialId>, back: seq<CredentialId>)
    ensures NotOversized(info, front + back) == NotOversized(info, front) + NotOversized(info, back)
  {
    if front == [] {
      assert front + back == back;
    } else {
      assert (front + back)[0] == front[0] && (front + back)[1..] == front[1..] + back;
      NotOversizedInOrder(info, front[1..], back);
    }
  }

  /** What a device's answer says about a credential: its id, that it is not there, or nothing. Only one error says that it
      is not there. */
  function Found(id: CredentialId, result: Result<CommandResponse, UvError>): Result<Option<CredentialId>, UvError> {
    match result
    case Success(x) => Success(Some(if x.credentialId.Some? then x.credentialId.value else id))
    case Failure(NoCredentials) => Success(None)
    case Failure(e) => Failure(e)
  }

  /** A test of the credential that found it, under the id that the device gives if it gives one, or found that it is not
      there, which takes the one error. */
  predicate Tests(e: Event, rpid: string, id: CredentialId, found: Option<CredentialId>) {
    && e.SentCommand? && e.command == SilentAssertionCommand(rpid, id)
    && match e.result
       case Success(x) => found == (if x.credentialId.None? then Some(id) else x.credentialId)
       case Failure(why) => why == NoCredentials && found == None
  }

  /** The test that `t` ends with says nothing about its credential. */
  predicate Fails(t: Trace, e: UvError) {
    t.Snoc? && t.last.SentCommand? && t.last.command.SilentAssertionCommand? && t.last.result == Failure(e) && e != NoCredentials
  }

  /** `t` continues `start` with a test of each credential, which found `kept`: under the relying party's id, and, if that is
      in vain and there is one, under the legacy id. */
  predicate Tested(start: Trace, t: Trace, ids: seq<CredentialId>, rpid: string, appid: Option<string>, kept: seq<CredentialId>)
    decreases |ids|
  {
    if ids == [] then t == start && kept == [] else
    var front, id := ids[..|ids| - 1], ids[|ids| - 1];
    var less, last := if kept == [] then [] else kept[..|kept| - 1], if kept == [] then None else Some(kept[|kept| - 1]);
    && t.Snoc?
    && (|| (last.Some? && Tests(t.last, rpid, id, last) && Tested(start, t.before, front, rpid, appid, less))
        || (appid.None? && Tests(t.last, rpid, id, None) && Tested(start, t.before, front, rpid, appid, kept))
        || (appid.Some? && t.before.Snoc? && Tests(t.before.last, rpid, id, None)
            && (|| (last.Some? && Tests(t.last, appid.value, id, last) && Tested(start, t.before.before, front, rpid, appid, less))
                || (Tests(t.last, appid.value, id, None) && Tested(start, t.before.before, front, rpid, appid, kept)))))
  }

  lemma TestedMore(start: Trace, t: Trace, u: Trace, ids: seq<CredentialId>, id: CredentialId, rpid: string, appid: Option<string>,
                   kept: seq<CredentialId>, found: Option<CredentialId>)
    requires Tested(start, t, ids, rpid, appid, kept)
    requires u.Snoc?
    requires
      || (u.before == t && found.Some? && Tests(u.last, rpid, id, found))
      || (u.before == t && appid.None? && Tests(u.last, rpid, id, None) && found.None?)
      || (appid.Some? && u.before.Snoc? && u.before.before == t && Tests(u.before.last, rpid, id, None) && Tests(u.last, appid.value, id, found))
    ensures Tested(start, u, ids + [id], rpid, appid, kept + if found.Some? then [found.value] else [])
  {
    var now := kept + if found.Some? then [found.value] else [];
    assert (ids + [id])[..|ids|] == ids;
    if found.Some? {
      assert now[..|now| - 1] == kept;
    } else {
      assert now == kept;
    }
  }

  method PreflightOne(ch: Channel, rpid: string, id: CredentialId) returns (r: Result<Option<CredentialId>, UvError>)
    requires ch.Invariant()
    modifies ch`script, ch`trace
    ensures ch.Invariant() && Follows(old(ch.trace), ch.trace) && Commands(ch.trace) == Commands(old(ch.trace))
    ensures LatestInfo(ch.trace) == LatestInfo(old(ch.trace))
    ensures ch.trace.Snoc? && ch.trace.before == old(ch.trace)
    ensures r.Success? ==> Tests(ch.trace.last, rpid, id, r.value)
    ensures r.Failure? ==> Blamed(ch.crypto, ch.trace, r.error) && Fails(ch.trace, r.error)
  {
    hide Safe, Commands, Tokens, Demands, Topic, Skips, WellBehaved, Follows, LatestInfo, UvFoundBlocked, CacheSound, Brief, DescriptionBlamed;
    ghost var t := ch.trace;
    var result := ch.Send(SilentAssertionCommand(rpid, id));
    CommandSent(ch.crypto, t, SilentAssertionCommand(rpid, id), result, ch.authData);
    r := Found(id, result);
  }

  method Preflight(ch: Channel, ids: seq<CredentialId>, rpid: string, appid: Option<string>) returns (r: Result<seq<CredentialId>, UvError>)
    requires ch.Invariant()
    modifies ch`script, ch`trace
    ensures ch.Invariant() && Follows(old(ch.trace), ch.trace) && Commands(ch.trace) == Commands(old(ch.trace))
    ensures LatestInfo(ch.trace) == LatestInfo(old(ch.trace))
    ensures r.Success? ==> Tested(old(ch.trace), ch.trace, ids, rpid, appid, r.value)
    ensures r.Failure? ==> Blamed(ch.crypto, ch.trace, r.error) && Fails(ch.trace, r.error) && ch.trace != old(ch.trace)
  {
    hide Safe, Commands, Tokens, Demands, Topic, Skips, WellBehaved, Follows, LatestInfo, CacheSound, Brief, Blamed, Tests;
    var kept: seq<CredentialId> := [];
    ghost var start := ch.trace;
    FollowsSelf(start);
    for i := 0 to |ids|
      invariant ch.Invariant() && Follows(start, ch.trace) && Commands(ch.trace) == Commands(start)
      invariant LatestInfo(ch.trace) == LatestInfo(start)
      invariant Tested(start, ch.trace, ids[..i], rpid, appid, kept)
    {
      ghost var t := ch.trace;
      assert ids[..i] + [ids[i]] == ids[..i + 1];
      var found := PreflightOne(ch, rpid, ids[i]);
      FollowsTransitive(start, t, ch.trace);
      FollowsIsLonger(start, ch.trace.before);
      if found.Failure? { return Failure(found.error); }
      if found.value.None? && appid.Some? {
        ghost var u := ch.trace;
        found := PreflightOne(ch, appid.value, ids[i]);
        FollowsTransitive(start, u, ch.trace);
        FollowsIsLonger(start, ch.trace.before);
        if found.Failure? { return Failure(found.error); }
      }
      TestedMore(start, t, ch.trace, ids[..i], ids[i], rpid, appid, kept, found.value);
      if found.value.Some? {
        kept := kept + [found.value.value];
      } else {
        assert kept + [] == kept;
      }
    }
    assert ids[..|ids|] == ids;
    r := Success(kept);
  }

  /** Nothing is left of the list exactly if the device said of every credential, under every id asked for, that it is not
      there. */
  lemma {:induction false} NothingFound(start: Trace, t: Trace, ids: seq<CredentialId>, rpid: string, appid: Option<string>, kept: seq<CredentialId>)
    requires Tested(start, t, ids, rpid, appid, kept)
    ensures |kept| <= |ids|
    ensures kept == [] <==> Denied(start, t, ids, rpid, appid)
    decreases |ids|
  {
    if ids != [] {
      var front, id := ids[..|ids| - 1], ids[|ids| - 1];
      var less, last := if kept == [] then [] else kept[..|kept| - 1], if kept == [] then None else Some(kept[|kept| - 1]);
      if last.Some? && Tests(t.last, rpid, id, last) && Tested(start, t.before, front, rpid, appid, less) {
        NothingFound(start, t.before, front, rpid, appid, less);
      } else if appid.None? {
        NothingFound(start, t.before, front, rpid, appid, kept);
      } else if last.Some? && Tests(t.last, appid.value, id, last) && Tested(start, t.before.before, front, rpid, appid, less) {
        NothingFound(start, t.before.before, front, rpid, appid, less);
      } else {
        NothingFound(start, t.before.before, front, rpid, appid, kept);
      }
    }
  }

  /** The device denied every credential. */
  predicate Denied(start: Trace, t: Trace, ids: seq<CredentialId>, rpid: string, appid: Option<string>)
    decreases |ids|
  {
    if ids == [] then t == start else
    var front, id := ids[..|ids| - 1], ids[|ids| - 1];
    t.Snoc? &&
    if appid.None? then Tests(t.last, rpid, id, None) && Denied(start, t.before, front, rpid, appid)
    else t.before.Snoc? && Tests(t.before.last, rpid, id, None) && Tests(t.last, appid.value, id, None)
         && Denied(start, t.before.before, front, rpid, appid)
  }
}
