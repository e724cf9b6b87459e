/** The subscription registry: an insertion-ordered list without duplicates, and the history it stands for. */
module Registry {
  import opened Wire
  import opened Dialects

  /** A completed persistent operation: an acknowledged `subscribe` with `persist=True` (`on`), or an acknowledged
      `unsubscribe`. `id` and `params` are those of the request that was acknowledged. */
  datatype Op = Op(entry: Entry, on: bool, params: Frame, id: nat)

  function Add(subs: seq<Entry>, e: Entry): seq<Entry> {
    if e in subs then subs else subs + [e]
  }

  /** `list.remove`: drop the first occurrence; absence is not an error. */
  function Remove(subs: seq<Entry>, e: Entry): seq<Entry> {
    if subs == [] then []
    else if subs[0] == e then subs[1..]
    else [subs[0]] + Remove(subs[1..], e)
  }

  function Step(subs: seq<Entry>, op: Op): seq<Entry> {
    if op.on then Add(subs, op.entry) else Remove(subs, op.entry)
  }

  /** The registry after a history of operations. */
  function Contents(ops: seq<Op>): seq<Entry> {
    if ops == [] then [] else Step(Contents(ops[..|ops| - 1]), ops[|ops| - 1])
  }

  // ---- the reference reading of a history ---------------------------------------------------

  predicate LastOn(ops: seq<Op>, e: Entry, i: int) {
    0 <= i < |ops| && ops[i].entry == e && ops[i].on && forall j :: i < j < |ops| ==> ops[j].entry != e
  }

  /** The last operation on `e` was a subscribe. */
  ghost predicate Active(ops: seq<Op>, e: Entry) {
    exists i :: LastOn(ops, e, i)
  }

  /** `e` last entered with operation `i`: a subscribe that found it inactive, and no unsubscribe since. */
  ghost predicate EnteredAt(ops: seq<Op>, e: Entry, i: nat) {
    && i < |ops| && ops[i].entry == e && ops[i].on
    && !Active(ops[..i], e)
    && forall j :: i < j < |ops| && ops[j].entry == e ==> ops[j].on
  }

  predicate Distinct(subs: seq<Entry>) {
    forall p, q :: 0 <= p < q < |subs| ==> subs[p] != subs[q]
  }

  /** Each entry's time of entry, in the order of the registry. */
  ghost predicate EntryTimes(ops: seq<Op>, subs: seq<Entry>, times: seq<nat>) {
    && |times| == |subs|
    && (forall p :: 0 <= p < |subs| ==> EnteredAt(ops, subs[p], times[p]))
    && (forall p, q :: 0 <= p < q < |subs| ==> times[p] < times[q])
  }

  lemma ActiveStep(ops: seq<Op>, op: Op, e: Entry)
    ensures Active(ops + [op], e) <==> if op.entry == e then op.on else Active(ops, e)
  {
    var after := ops + [op];
    if op.entry == e {
      assert after[|ops|] == op;
      assert op.on ==> LastOn(after, e, |ops|);
      assert forall i :: LastOn(after, e, i) ==> i == |ops|;
    } else {
      forall i ensures LastOn(after, e, i) <==> LastOn(ops, e, i) {
        assert forall j :: 0 <= j < |ops| ==> after[j] == ops[j];
      }
    }
  }

  lemma EnteredStep(ops: seq<Op>, op: Op, e: Entry, i: nat)
    requires EnteredAt(ops, e, i) && (op.entry == e ==> op.on)
    ensures EnteredAt(ops + [op], e, i)
  {
    assert (ops + [op])[..i] == ops[..i];
  }

  lemma {:induction false} RemoveAbsent(subs: seq<Entry>, e: Entry)
    requires e !in subs
    ensures Remove(subs, e) == subs
  {
    if subs != [] {
      RemoveAbsent(subs[1..], e);
    }
  }

  lemma {:induction false} RemoveFirst(subs: seq<Entry>, p: nat)
    requires p < |subs| && forall q :: 0 <= q < p ==> subs[q] != subs[p]
    ensures Remove(subs, subs[p]) == subs[..p] + subs[p + 1..]
  {
    if p == 0 {
      assert subs[..0] + subs[1..] == subs[1..];
    } else {
      RemoveFirst(subs[1..], p - 1);
      assert [subs[0]] + subs[1..][..p - 1] == subs[..p];
    }
  }

  lemma DropOne(subs: seq<Entry>, p: nat)
    requires Distinct(subs) && p < |subs|
    ensures var kept := subs[..p] + subs[p + 1..];
            Distinct(kept) && forall x :: x in kept <==> x in subs && x != subs[p]
  {
    var kept := subs[..p] + subs[p + 1..];
    assert forall q :: 0 <= q < |kept| ==> kept[q] == subs[if q < p then q else q + 1];
    forall x | x in subs && x != subs[p] ensures x in kept {
      var q :| 0 <= q < |subs| && subs[q] == x;
      assert kept[if q < p then q else q - 1] == x;
    }
  }

  lemma RemoveDistinct(subs: seq<Entry>, e: Entry)
    requires Distinct(subs)
    ensures Distinct(Remove(subs, e)) && forall x :: x in Remove(subs, e) <==> x in subs && x != e
  {
    if e in subs {
      var p :| 0 <= p < |subs| && subs[p] == e;
      RemoveFirst(subs, p);
      DropOne(subs, p);
    } else {
      RemoveAbsent(subs, e);
    }
  }

  /** The registry of a history: no duplicates, exactly the entries whose last operation was a subscribe, in the
      order in which they last entered. */
  lemma {:induction false} ContentsLaw(ops: seq<Op>) returns (times: seq<nat>)
    ensures Distinct(Contents(ops))
    ensures forall e :: e in Contents(ops) <==> Active(ops, e)
    ensures EntryTimes(ops, Contents(ops), times)
  {
    if ops == [] {
      times := [];
    } else {
      var n := |ops| - 1;
      var before, op := ops[..n], ops[n];
      assert ops == before + [op];
      var timesBefore := ContentsLaw(before);
      var subs := Contents(before);
      forall e ensures Active(ops, e) <==> if op.entry == e then op.on else Active(before, e) {
        ActiveStep(before, op, e);
      }
      if op.on && op.entry in subs {
        times := timesBefore;
        KeepTimes(before, op, subs, times);
      } else if op.on {
        times := timesBefore + [n];
        KeepTimes(before, op, subs, timesBefore);
        assert EnteredAt(ops, op.entry, n);
      } else {
        RemoveDistinct(subs, op.entry);
        times := RemoveTimes(before, op, subs, timesBefore);
      }
    }
  }

  lemma KeepTimes(ops: seq<Op>, op: Op, subs: seq<Entry>, times: seq<nat>)
    requires EntryTimes(ops, subs, times) && (op.on || op.entry !in subs)
    ensures EntryTimes(ops + [op], subs, times)
  {
    forall p | 0 <= p < |subs| ensures EnteredAt(ops + [op], subs[p], times[p]) {
      EnteredStep(ops, op, subs[p], times[p]);
    }
  }

  lemma RemoveTimes(ops: seq<Op>, op: Op, subs: seq<Entry>, times: seq<nat>) returns (after: seq<nat>)
    requires EntryTimes(ops, subs, times) && Distinct(subs) && !op.on
    ensures EntryTimes(ops + [op], Remove(subs, op.entry), after)
  {
    if op.entry in subs {
      var p :| 0 <= p < |subs| && subs[p] == op.entry;
      RemoveFirst(subs, p);
      after := times[..p] + times[p + 1..];
      DropTime(ops, subs, times, p);
      KeepTimes(ops, op, subs[..p] + subs[p + 1..], after);
    } else {
      after := times;
      RemoveAbsent(subs, op.entry);
      KeepTimes(ops, op, subs, after);
    }
  }

  lemma DropTime(ops: seq<Op>, subs: seq<Entry>, times: seq<nat>, p: nat)
    requires EntryTimes(ops, subs, times) && Distinct(subs) && p < |subs|
    ensures var kept := subs[..p] + subs[p + 1..];
            EntryTimes(ops, kept, times[..p] + times[p + 1..]) && subs[p] !in kept
  {
    var kept, after := subs[..p] + subs[p + 1..], times[..p] + times[p + 1..];
    forall q | 0 <= q < |kept|
      ensures EnteredAt(ops, kept[q], after[q]) && kept[q] != subs[p]
    {
      var q' := if q < p then q else q + 1;
      assert kept[q] == subs[q'] && after[q] == times[q'];
    }
  }
}
