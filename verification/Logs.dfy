/** Complete logs: position i holds the entry with index i + 1, and nothing is ever compacted away. */
module Logs {
  import opened RaftTypes

  predicate Numbered(log: seq<Entry>) {
    forall i :: 0 <= i < |log| ==> log[i].index == i + 1
  }

  /** The term at an index; index zero precedes the log and has term zero. */
  function TermOf(log: seq<Entry>, i: nat): nat
    requires i <= |log|
  {
    if i == 0 then 0 else log[i - 1].term
  }

  /** Both logs reach index k and are the same up to it. */
  predicate Agree(a: seq<Entry>, b: seq<Entry>, k: nat) {
    k <= |a| && k <= |b| && forall i :: 0 <= i < k ==> a[i] == b[i]
  }

  /** The vote check: the candidate's last entry is not behind this log. */
  predicate UpToDate(lastIndex: nat, lastTerm: nat, log: seq<Entry>) {
    lastTerm > TermOf(log, |log|) || (lastTerm == TermOf(log, |log|) && lastIndex >= |log|)
  }

  /** Entries that follow index prev without a gap. */
  predicate Contiguous(prev: nat, entries: seq<Entry>) {
    forall i :: 0 <= i < |entries| ==> entries[i].index == prev + 1 + i
  }

  predicate Decodable(log: seq<Entry>) {
    forall i :: 0 <= i < |log| ==> log[i].command.SetCommand?
  }

  function ApplyCommand(kv: map<string, string>, cmd: Command): map<string, string> {
    match cmd
    case SetCommand(k, v) => kv[k := v]
    case Malformed(_) => kv
  }

  /** The key-value map after applying a whole log, oldest entry first, to an empty map. */
  function Replay(log: seq<Entry>): map<string, string> {
    ReplayOnto(map[], log)
  }

  function ReplayOnto(kv: map<string, string>, log: seq<Entry>): map<string, string> {
    if log == [] then kv
    else ApplyCommand(ReplayOnto(kv, log[..|log| - 1]), log[|log| - 1].command)
  }

  lemma AgreeSlice(a: seq<Entry>, b: seq<Entry>, k: nat)
    requires k <= |a| && k <= |b|
    ensures Agree(a, b, k) <==> a[..k] == b[..k]
  {
    if a[..k] == b[..k] {
      forall i | 0 <= i < k
        ensures a[i] == b[i]
      {
        assert a[..k][i] == b[..k][i];
      }
    }
  }

  lemma {:induction false} ReplayConcat(kv: map<string, string>, a: seq<Entry>, b: seq<Entry>)
    ensures ReplayOnto(kv, a + b) == ReplayOnto(ReplayOnto(kv, a), b)
  {
    if b == [] {
      assert a + b == a;
    } else {
      assert (a + b)[..|a + b| - 1] == a + b[..|b| - 1];
      ReplayConcat(kv, a, b[..|b| - 1]);
    }
  }
}
