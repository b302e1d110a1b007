/** `_priorities`: what PRIORITY events said about streams that have no response yet, as a table in
    insertion order, like the dictionary it is. */
module Priorities {
  import opened Http2Stream
  import opened Wrappers

  datatype Entry = Entry(sid: StreamId, dependsOn: nat, weight: nat)

  type Table = seq<Entry>

  function Find(t: Table, sid: StreamId): Option<Entry> {
    if t == [] then None else if t[0].sid == sid then Some(t[0]) else Find(t[1..], sid)
  }

  function Remove(t: Table, sid: StreamId): Table {
    if t == [] then [] else (if t[0].sid == sid then [] else [t[0]]) + Remove(t[1..], sid)
  }

  function Assign(t: Table, e: Entry): Table {
    if t == [] then [e] else if t[0].sid == e.sid then [e] + t[1..] else [t[0]] + Assign(t[1..], e)
  }

  /** The loop of an exclusive event: whoever depended on the parent now depends on the stream. */
  function Adopt(t: Table, parent: nat, sid: StreamId): Table {
    if t == [] then [] else
      [if t[0].dependsOn == parent then t[0].(dependsOn := sid) else t[0]] + Adopt(t[1..], parent, sid)
  }

  /** A PriorityUpdated event. */
  function Update(t: Table, sid: StreamId, dependsOn: nat, weight: nat, exclusive: bool): Table {
    Assign(if exclusive then Adopt(t, dependsOn, sid) else t, Entry(sid, dependsOn, weight))
  }

  lemma {:induction false} FindAssigned(t: Table, e: Entry, x: StreamId)
    ensures Find(Assign(t, e), x) == if x == e.sid then Some(e) else Find(t, x)
  {
    if t != [] && t[0].sid != e.sid {
      FindAssigned(t[1..], e, x);
      assert Assign(t, e)[1..] == Assign(t[1..], e);
    } else if t != [] {
      assert Assign(t, e)[1..] == t[1..];
    }
  }

  lemma {:induction false} FindAdopted(t: Table, parent: nat, sid: StreamId, x: StreamId)
    ensures Find(Adopt(t, parent, sid), x) ==
            match Find(t, x)
            case None => None
            case Some(e) => Some(if e.dependsOn == parent then e.(dependsOn := sid) else e)
  {
    if t != [] {
      FindAdopted(t[1..], parent, sid, x);
      assert Adopt(t, parent, sid)[1..] == Adopt(t[1..], parent, sid);
    }
  }

  /** The loop over the table, one entry further. */
  lemma {:induction false} AdoptNext(t: Table, i: nat, parent: nat, sid: StreamId)
    requires i < |t|
    ensures |Adopt(t[..i], parent, sid)| == i
    ensures Adopt(t[..i + 1], parent, sid) ==
            Adopt(t[..i], parent, sid) + [if t[i].dependsOn == parent then t[i].(dependsOn := sid) else t[i]]
  {
    if i == 0 {
      assert t[..1][1..] == [] && t[..0] == [];
    } else {
      AdoptNext(t[1..], i - 1, parent, sid);
      assert t[..i][1..] == t[1..][..i - 1] && t[..i + 1][1..] == t[1..][..i];
    }
  }

  lemma AdoptStep(t: Table, i: nat, parent: nat, sid: StreamId)
    requires i < |t|
    ensures var now := Adopt(t[..i], parent, sid) + t[i..];
            && |now| == |t| && now[i] == t[i]
            && Adopt(t[..i + 1], parent, sid) + t[i + 1..] ==
               if t[i].dependsOn == parent then now[i := t[i].(dependsOn := sid)] else now
  {
    AdoptNext(t, i, parent, sid);
    hide Adopt;
  }

  lemma {:induction false} FindRemoved(t: Table, sid: StreamId, x: StreamId)
    ensures Find(Remove(t, sid), x) == if x == sid then None else Find(t, x)
  {
    if t != [] {
      FindRemoved(t[1..], sid, x);
      if t[0].sid == sid {
        assert [] + Remove(t[1..], sid) == Remove(t[1..], sid);
      } else {
        assert Remove(t, sid)[1..] == Remove(t[1..], sid);
      }
    }
  }

  /** Section 5.3.1 of RFC 7540: after an exclusive event the stream is alone under its parent, its
      former siblings depend on it with their weights, and nothing else has changed. */
  lemma ExclusiveTakesOver(t: Table, sid: StreamId, dependsOn: nat, weight: nat, exclusive: bool, x: StreamId)
    requires sid != dependsOn
    ensures var before, after := Find(t, x), Find(Update(t, sid, dependsOn, weight, exclusive), x);
            && (x == sid ==> after == Some(Entry(sid, dependsOn, weight)))
            && (x != sid && exclusive && before.Some? && before.value.dependsOn == dependsOn ==>
                  after == Some(before.value.(dependsOn := sid)))
            && (x != sid && !(exclusive && before.Some? && before.value.dependsOn == dependsOn) ==> after == before)
            && (exclusive && after.Some? && after.value.dependsOn == dependsOn ==> x == sid)
  {
    FindAssigned(if exclusive then Adopt(t, dependsOn, sid) else t, Entry(sid, dependsOn, weight), x);
    FindAdopted(t, dependsOn, sid, x);
  }
}
