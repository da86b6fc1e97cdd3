/** The connection-policy pre-flight: the table of hosts the plugin needs to
    reach, and the decision whether every one is authorized, must be asked
    for, or was refused. The host's native answers (`isDomainAllowed` and the
    user's reply to `requestAddOverride`) are an input: one `Reply` per entry. */
module Csp {
  import opened Wrappers
  import Seqs

  type Directives = seq<string>

  const ConnectSrc: Directives := ["connect-src"]

  /** The hosts of the initial table, in declaration order. */
  const InitialHosts: seq<string> := [
    "https://coverartarchive.org",
    "https://archive.org",
    "https://*.archive.org",
    "https://api.themoviedb.org"
  ]

  /** The host's answers for one entry: whether the domain is already allowed,
      and, only consulted when it is not, the user's answer to the prompt. */
  datatype Reply = Reply(allowed: bool, response: string)

  /** One checked entry: `isDomainAllowed(url, directives)` was asked, followed
      by `requestAddOverride(url, directives, "Jellyfin Rich Presence")` when
      `prompted`. */
  datatype Check = Check(url: string, directives: Directives, prompted: bool)

  /** What the pre-flight ends with: the callback runs, the relaunch alert is
      shown, or the failure alert is shown. The alert's title and text are
      fixed and name no host; `url` only records the refused entry at which
      the walk stopped. */
  datatype Outcome = RunCallback | ShowRelaunchAlert | ShowFailureAlert(url: string)

  /** The domain is not allowed and the user did not answer "ok". */
  predicate Refused(reply: Reply)
  {
    !reply.allowed && reply.response != "ok"
  }

  /** The set of keys of an insertion-ordered key list. */
  function KeySet(keys: seq<string>): set<string>
  {
    if keys == [] then {} else {keys[0]} + KeySet(keys[1..])
  }

  /** No key occurs twice. */
  predicate Distinct(keys: seq<string>)
  {
    keys == [] || (keys[0] !in KeySet(keys[1..]) && Distinct(keys[1..]))
  }

  lemma {:induction false} KeySetMember(keys: seq<string>, k: string)
    ensures k in KeySet(keys) <==> k in keys
  {
    if keys != [] {
      KeySetMember(keys[1..], k);
      assert keys == [keys[0]] + keys[1..];
    }
  }

  lemma {:induction false} KeySetAppend(keys: seq<string>, k: string)
    ensures KeySet(keys + [k]) == KeySet(keys) + {k}
  {
    if keys != [] {
      assert (keys + [k])[1..] == keys[1..] + [k];
      KeySetAppend(keys[1..], k);
    }
  }

  lemma {:induction false} DistinctAppend(keys: seq<string>, k: string)
    requires Distinct(keys) && k !in KeySet(keys)
    ensures Distinct(keys + [k])
  {
    if keys == [] {
      assert keys + [k] == [k];
    } else {
      assert (keys + [k])[1..] == keys[1..] + [k];
      KeySetAppend(keys[1..], k);
      DistinctAppend(keys[1..], k);
    }
  }

  /** A distinct key list has no key at two positions: a check that the
      recursive `Distinct` means pairwise distinctness. */
  lemma {:induction false} DistinctAt(keys: seq<string>, i: nat, j: nat)
    requires Distinct(keys)
    requires i < j < |keys|
    ensures keys[i] != keys[j]
  {
    if i == 0 {
      KeySetMember(keys[1..], keys[j]);
      assert keys[1..][j - 1] == keys[j];
    } else {
      DistinctAt(keys[1..], i - 1, j - 1);
    }
  }

  /** The entries of the table in iteration order. */
  function Entries(keys: seq<string>, m: map<string, Directives>): (e: seq<(string, Directives)>)
    requires KeySet(keys) <= m.Keys
    ensures |e| == |keys|
  {
    if keys == [] then [] else [(keys[0], m[keys[0]])] + Entries(keys[1..], m)
  }

  /** Entry `i` is key `i` with its directives: a check that the recursive
      `Entries` walks the keys in order. */
  lemma {:induction false} EntriesAt(keys: seq<string>, m: map<string, Directives>, i: nat)
    requires KeySet(keys) <= m.Keys
    requires i < |keys|
    ensures keys[i] in m
    ensures Entries(keys, m)[i] == (keys[i], m[keys[i]])
  {
    if i > 0 {
      EntriesAt(keys[1..], m, i - 1);
    }
  }

  /** The outcome of the loop of `ensureAllOverrides` from entry `from` on,
      the relaunch flag being `requestRelaunch` so far. */
  function Decide(entries: seq<(string, Directives)>, replies: seq<Reply>, from: nat, requestRelaunch: bool): Outcome
    requires from <= |entries| <= |replies|
    decreases |entries| - from
  {
    if from == |entries| then
      if requestRelaunch then ShowRelaunchAlert else RunCallback
    else if replies[from].allowed then Decide(entries, replies, from + 1, requestRelaunch)
    else if replies[from].response == "ok" then Decide(entries, replies, from + 1, true)
    else ShowFailureAlert(entries[from].0)
  }

  /** The outcome described without the loop: the first refusal decides;
      without one, any prompt (or an already set flag) means relaunch. */
  function Expected(entries: seq<(string, Directives)>, replies: seq<Reply>, from: nat, requestRelaunch: bool): Outcome
    requires from <= |entries| <= |replies|
  {
    match Seqs.FindFirst(replies[from..|entries|], Refused)
    case Some(k) => ShowFailureAlert(entries[from + k].0)
    case None =>
      if requestRelaunch || exists j :: from <= j < |entries| && !replies[j].allowed
      then ShowRelaunchAlert else RunCallback
  }

  /** Where the loop stops: just after the first refusal, otherwise at the end. */
  function StopIndex(entries: seq<(string, Directives)>, replies: seq<Reply>, from: nat): nat
    requires from <= |entries| <= |replies|
  {
    match Seqs.FindFirst(replies[from..|entries|], Refused)
    case Some(k) => from + k + 1
    case None => |entries|
  }

  /** Passing an entry that is not refused shifts the described outcome to
      the next entry, with the flag set when that entry needed a prompt. */
  lemma ExpectedPass(entries: seq<(string, Directives)>, replies: seq<Reply>, from: nat, requestRelaunch: bool)
    requires from < |entries| <= |replies|
    requires !Refused(replies[from])
    ensures Expected(entries, replies, from, requestRelaunch)
            == Expected(entries, replies, from + 1, requestRelaunch || !replies[from].allowed)
  {
  }

  lemma {:induction false} DecideCharacterized(entries: seq<(string, Directives)>, replies: seq<Reply>, from: nat, requestRelaunch: bool)
    requires from <= |entries| <= |replies|
    ensures Decide(entries, replies, from, requestRelaunch) == Expected(entries, replies, from, requestRelaunch)
    decreases |entries| - from
  {
    if from < |entries| {
      if Refused(replies[from]) {
        assert replies[from..|entries|][0] == replies[from];
      } else {
        ExpectedPass(entries, replies, from, requestRelaunch);
        DecideCharacterized(entries, replies, from + 1, requestRelaunch || !replies[from].allowed);
      }
    }
  }

  /** The checks of the first `n` entries, in order. */
  function ChecksUpTo(entries: seq<(string, Directives)>, replies: seq<Reply>, n: nat): seq<Check>
    requires n <= |entries| <= |replies|
  {
    if n == 0 then []
    else ChecksUpTo(entries, replies, n - 1) + [Check(entries[n - 1].0, entries[n - 1].1, !replies[n - 1].allowed)]
  }

  /** Check `j` is about entry `j`, and prompts exactly when that entry was not
      allowed: a check that the recursive `ChecksUpTo` records the native calls. */
  lemma {:induction false} ChecksUpToAt(entries: seq<(string, Directives)>, replies: seq<Reply>, n: nat, j: nat)
    requires n <= |entries| <= |replies|
    requires j < n
    ensures |ChecksUpTo(entries, replies, n)| == n
    ensures ChecksUpTo(entries, replies, n)[j] == Check(entries[j].0, entries[j].1, !replies[j].allowed)
  {
    if j < n - 1 {
      ChecksUpToAt(entries, replies, n - 1, j);
    } else if n > 1 {
      ChecksUpToAt(entries, replies, n - 1, 0);
    }
  }

  /** The loop stops right after the first refused entry. */
  lemma StopAtRefusal(entries: seq<(string, Directives)>, replies: seq<Reply>, i: nat)
    requires |entries| <= |replies|
    requires i < |entries| && Refused(replies[i])
    requires forall j :: 0 <= j < i ==> !Refused(replies[j])
    ensures Seqs.FindFirst(replies[0..|entries|], Refused) == Some(i)
    ensures StopIndex(entries, replies, 0) == i + 1
  {
  }

  /** Without a refused entry the loop checks every entry. */
  lemma StopAtEnd(entries: seq<(string, Directives)>, replies: seq<Reply>)
    requires |entries| <= |replies|
    requires forall j :: 0 <= j < |entries| ==> !Refused(replies[j])
    ensures Seqs.FindFirst(replies[0..|entries|], Refused) == None
    ensures StopIndex(entries, replies, 0) == |entries|
  {
  }

  /** The callback runs exactly when every entry was already allowed, so no
      prompt was shown. */
  lemma CallbackIffAllAllowed(entries: seq<(string, Directives)>, replies: seq<Reply>)
    requires |entries| <= |replies|
    ensures Decide(entries, replies, 0, false) == RunCallback <==> forall j :: 0 <= j < |entries| ==> replies[j].allowed
  {
    DecideCharacterized(entries, replies, 0, false);
    var s := replies[0..|entries|];
    if forall j :: 0 <= j < |entries| ==> replies[j].allowed {
      assert forall j :: 0 <= j < |s| ==> !Refused(s[j]);
    } else {
      var j :| 0 <= j < |entries| && !replies[j].allowed;
      assert 0 <= j < |s| && !s[j].allowed;
    }
  }

  /** A refusal ends the pre-flight with the failure alert for the FIRST
      refused entry; entries after it are never checked. */
  lemma RefusalStops(entries: seq<(string, Directives)>, replies: seq<Reply>, i: nat)
    requires |entries| <= |replies|
    requires i < |entries| && Refused(replies[i])
    requires forall j :: 0 <= j < i ==> !Refused(replies[j])
    ensures Decide(entries, replies, 0, false) == ShowFailureAlert(entries[i].0)
    ensures StopIndex(entries, replies, 0) == i + 1
  {
    DecideCharacterized(entries, replies, 0, false);
    StopAtRefusal(entries, replies, i);
  }

  /** Without a refusal, a prompt answered "ok" leads to the relaunch alert
      and every entry is checked. */
  lemma AcceptedPromptMeansRelaunch(entries: seq<(string, Directives)>, replies: seq<Reply>, i: nat)
    requires |entries| <= |replies|
    requires forall j :: 0 <= j < |entries| ==> !Refused(replies[j])
    requires i < |entries| && !replies[i].allowed
    ensures Decide(entries, replies, 0, false) == ShowRelaunchAlert
    ensures StopIndex(entries, replies, 0) == |entries|
  {
    DecideCharacterized(entries, replies, 0, false);
    StopAtEnd(entries, replies);
  }

  /** The module-level `overrides` object: a map from host to directives, with
      its keys in insertion order. */
  class Overrides {
    var keys: seq<string>
    var m: map<string, Directives>

    ghost predicate Valid()
      reads this
    {
      Distinct(keys) && m.Keys == KeySet(keys)
    }

    /** The initial table: four hosts, each with `connect-src`. */
    constructor ()
      ensures Valid()
      ensures keys == InitialHosts
      ensures forall k :: k in m ==> m[k] == ConnectSrc
    {
      assert Distinct(InitialHosts[3..]);
      assert Distinct(InitialHosts[2..]);
      assert Distinct(InitialHosts[1..]);
      keys := InitialHosts;
      m := map[
        "https://coverartarchive.org" := ConnectSrc,
        "https://archive.org" := ConnectSrc,
        "https://*.archive.org" := ConnectSrc,
        "https://api.themoviedb.org" := ConnectSrc
      ];
    }

    /** `addOverride(url, directives)`: sets the entry of `url`; a new host
        goes last, an existing one keeps its place. */
    method AddOverride(url: string, directives: Directives)
      requires Valid()
      modifies this
      ensures Valid()
      ensures m == old(m)[url := directives]
      ensures keys == if url in old(m) then old(keys) else old(keys) + [url]
    {
      if url !in m {
        DistinctAppend(keys, url);
        KeySetAppend(keys, url);
        keys := keys + [url];
      }
      m := m[url := directives];
    }

    /** `ensureAllOverrides(callback)`: walks the entries in order, asking for
        an override only for an entry not yet allowed, and stops at the first
        refusal. */
    method EnsureAllOverrides(replies: seq<Reply>) returns (outcome: Outcome, checks: seq<Check>)
      requires Valid()
      requires |replies| >= |keys|
      ensures outcome == Decide(Entries(keys, m), replies, 0, false)
      ensures checks == ChecksUpTo(Entries(keys, m), replies, StopIndex(Entries(keys, m), replies, 0))
    {
      var entries := Entries(keys, m);
      var requestRelaunch := false;
      checks := [];
      var i := 0;
      while i < |entries|
        invariant 0 <= i <= |entries|
        invariant Decide(entries, replies, 0, false) == Decide(entries, replies, i, requestRelaunch)
        invariant checks == ChecksUpTo(entries, replies, i)
        invariant forall j :: 0 <= j < i ==> !Refused(replies[j])
      {
        var url := entries[i].0;
        var allowed := replies[i].allowed;
        checks := checks + [Check(url, entries[i].1, !allowed)];
        if !allowed {
          var userResponse := replies[i].response;
          if userResponse == "ok" {
            requestRelaunch := true;
          } else {
            StopAtRefusal(entries, replies, i);
            outcome := ShowFailureAlert(url);
            return;
          }
        }
        i := i + 1;
      }
      StopAtEnd(entries, replies);
      outcome := if requestRelaunch then ShowRelaunchAlert else RunCallback;
    }
  }
}
