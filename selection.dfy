/**
 The latest-sibling selection of FindLatestMachine, as functions over the
 list of machines the cluster scope returned, and what it guarantees.

 The scan seeds its candidate with the first machine and replaces it by every
 machine that is not older than the candidate and is not the receiver; the
 receiver is identified by name. A timestamp is "before" another when it is
 strictly smaller.
 */
module Selection {
  import opened Api

  function Timestamp(m: IonosCloudMachine): int
  {
    m.meta.creationTimestamp
  }

  /** Whether the scan replaces candidate `c` by `m`, given the receiver's name. */
  predicate Replaces(m: IonosCloudMachine, c: IonosCloudMachine, receiver: string)
  {
    !(Timestamp(m) < Timestamp(c)) && m.meta.name != receiver
  }

  /** The index of the scan's candidate once it has visited `ms[..i]`. */
  function CandidateAfter(ms: seq<IonosCloudMachine>, receiver: string, i: nat): (c: nat)
    requires 0 < |ms| && i <= |ms|
    ensures c < |ms|
    ensures c == 0 || c < i
    decreases i
  {
    if i == 0 then 0
    else
      var c := CandidateAfter(ms, receiver, i - 1);
      if Replaces(ms[i - 1], ms[c], receiver) then i - 1 else c
  }

  /** FindLatestMachine's answer for a list that was fetched without error; None is nil. */
  function LatestSibling(ms: seq<IonosCloudMachine>, receiver: string): Option<IonosCloudMachine>
  {
    if |ms| <= 1 then None
    else
      var c := CandidateAfter(ms, receiver, |ms|);
      if ms[c].meta.name == receiver then None else Some(ms[c])
  }

  /**
   `ms[k]` is a latest sibling: it is not the receiver, no other non-receiver
   machine is newer, and every non-receiver machine after it in the list is
   strictly older (the last one wins a tie).
   */
  predicate IsLatestSibling(ms: seq<IonosCloudMachine>, receiver: string, k: int)
  {
    && 0 <= k < |ms|
    && ms[k].meta.name != receiver
    && (forall j :: 0 <= j < |ms| && ms[j].meta.name != receiver ==> Timestamp(ms[j]) <= Timestamp(ms[k]))
    && (forall j :: k < j < |ms| && ms[j].meta.name != receiver ==> Timestamp(ms[j]) < Timestamp(ms[k]))
  }

  /**
   What holds of candidate `c` after the scan has visited `ms[..i]`: either it
   is still the seed and every non-receiver machine seen so far is older than
   the seed, or it is the last newest non-receiver machine seen so far and not
   older than the seed.
   */
  ghost predicate ScanInvariant(ms: seq<IonosCloudMachine>, receiver: string, i: nat, c: nat)
    requires c < |ms| && i <= |ms|
  {
    || (&& c == 0
        && forall j :: 0 <= j < i && ms[j].meta.name != receiver ==> Timestamp(ms[j]) < Timestamp(ms[0]))
    || (&& c < i
        && ms[c].meta.name != receiver
        && Timestamp(ms[0]) <= Timestamp(ms[c])
        && (forall j :: 0 <= j < i && ms[j].meta.name != receiver ==> Timestamp(ms[j]) <= Timestamp(ms[c]))
        && (forall j :: c < j < i && ms[j].meta.name != receiver ==> Timestamp(ms[j]) < Timestamp(ms[c])))
  }

  lemma {:induction false} CandidateAfterInvariant(ms: seq<IonosCloudMachine>, receiver: string, i: nat)
    requires 0 < |ms| && i <= |ms|
    ensures ScanInvariant(ms, receiver, i, CandidateAfter(ms, receiver, i))
  {
    if i > 0 {
      CandidateAfterInvariant(ms, receiver, i - 1);
    }
  }

  /** A list of at most one machine never yields a sibling, whatever machine it holds. */
  lemma ShortListHasNoSibling(ms: seq<IonosCloudMachine>, receiver: string)
    requires |ms| <= 1
    ensures LatestSibling(ms, receiver) == None
  {
  }

  /** A returned machine is in the list, is not the receiver, and is the latest sibling there. */
  lemma LatestSiblingSound(ms: seq<IonosCloudMachine>, receiver: string)
    ensures LatestSibling(ms, receiver).Some? ==>
              exists k :: IsLatestSibling(ms, receiver, k) && ms[k] == LatestSibling(ms, receiver).value
  {
    if 2 <= |ms| {
      var c := CandidateAfter(ms, receiver, |ms|);
      CandidateAfterInvariant(ms, receiver, |ms|);
      if ms[c].meta.name != receiver {
        assert IsLatestSibling(ms, receiver, c);
      }
    }
  }

  /**
   For two or more machines, the answer is nil exactly when the first machine
   is the receiver and every other non-receiver machine is strictly older.
   */
  lemma LatestSiblingNoneIff(ms: seq<IonosCloudMachine>, receiver: string)
    requires 2 <= |ms|
    ensures LatestSibling(ms, receiver) == None <==>
              && ms[0].meta.name == receiver
              && forall j :: 0 < j < |ms| && ms[j].meta.name != receiver ==> Timestamp(ms[j]) < Timestamp(ms[0])
  {
    CandidateAfterInvariant(ms, receiver, |ms|);
  }

  /** When the first machine is not the receiver, a sibling is always found. */
  lemma FirstNotReceiverFindsSibling(ms: seq<IonosCloudMachine>, receiver: string)
    requires 2 <= |ms| && ms[0].meta.name != receiver
    ensures LatestSibling(ms, receiver).Some?
  {
    LatestSiblingNoneIff(ms, receiver);
  }

  /** At most one index is a latest sibling. */
  lemma LatestSiblingUnique(ms: seq<IonosCloudMachine>, receiver: string, k1: int, k2: int)
    requires IsLatestSibling(ms, receiver, k1) && IsLatestSibling(ms, receiver, k2)
    ensures k1 == k2
  {
  }

  /**
   Conversely, a latest sibling is returned whenever it is not older than the
   first machine, or the first machine is not the receiver.
   */
  lemma LatestSiblingComplete(ms: seq<IonosCloudMachine>, receiver: string, k: int)
    requires 2 <= |ms| && IsLatestSibling(ms, receiver, k)
    requires ms[0].meta.name != receiver || Timestamp(ms[0]) <= Timestamp(ms[k])
    ensures LatestSibling(ms, receiver) == Some(ms[k])
  {
    LatestSiblingNoneIff(ms, receiver);
    LatestSiblingSound(ms, receiver);
    var k' :| IsLatestSibling(ms, receiver, k') && ms[k'] == LatestSibling(ms, receiver).value;
    LatestSiblingUnique(ms, receiver, k, k');
  }

  /** Two siblings created in the same second: the one later in the list wins. */
  lemma TieGoesToLaterSibling(a: IonosCloudMachine, b: IonosCloudMachine, receiver: string)
    requires a.meta.name != receiver && b.meta.name != receiver
    requires Timestamp(a) == Timestamp(b)
    ensures LatestSibling([a, b], receiver) == Some(b)
  {
  }

  /**
   The receiver first in the list and newer than every sibling: nil, although
   siblings exist.
   */
  lemma NewestReceiverFirstYieldsNil(ms: seq<IonosCloudMachine>, receiver: string)
    requires 2 <= |ms| && ms[0].meta.name == receiver
    requires forall j :: 0 < j < |ms| ==> Timestamp(ms[j]) < Timestamp(ms[0])
    ensures LatestSibling(ms, receiver) == None
  {
    LatestSiblingNoneIff(ms, receiver);
  }
}
