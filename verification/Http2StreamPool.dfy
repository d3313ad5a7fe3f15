/** StreamManager: slots of a pool are recycled, and to its callers it is a plain map. */
module Http2StreamPool {
  import opened Bytes

  const MAX_INDEX: nat := 8192

  datatype Slot<T> = Free | Live(id: nat, stream: T)

  /** The index leads to exactly the live slots. */
  ghost predicate Indexed<T>(pool: seq<Slot<T>>, index: map<nat, nat>) {
    && (forall id | id in index :: index[id] < |pool| && pool[index[id]].Live? && pool[index[id]].id == id)
    && (forall i | 0 <= i < |pool| && pool[i].Live? :: pool[i].id in index && index[pool[i].id] == i)
  }

  /** The free list names every other slot, once. */
  ghost predicate Listed<T>(pool: seq<Slot<T>>, free: seq<nat>) {
    && (forall k | 0 <= k < |free| :: free[k] < |pool| && pool[free[k]].Free?)
    && (forall k, m | 0 <= k < m < |free| :: free[k] != free[m])
    && (forall i | 0 <= i < |pool| && pool[i].Free? :: i in free)
  }

  ghost function Visible<T>(pool: seq<Slot<T>>, index: map<nat, nat>): map<nat, T>
    requires Indexed(pool, index)
  {
    map id | id in index :: pool[index[id]].stream
  }

  lemma Installed<T>(pool: seq<Slot<T>>, index: map<nat, nat>, i: nat, id: nat, stream: T)
    requires Indexed(pool, index) && i < |pool| && pool[i].Free? && id !in index
    ensures Indexed(pool[i := Live(id, stream)], index[id := i])
    ensures Visible(pool[i := Live(id, stream)], index[id := i]) == Visible(pool, index)[id := stream]
  {
  }

  lemma Uninstalled<T>(pool: seq<Slot<T>>, index: map<nat, nat>, id: nat)
    requires Indexed(pool, index) && id in index
    ensures Indexed(pool[index[id] := Free], index - {id})
    ensures Visible(pool[index[id] := Free], index - {id}) == Visible(pool, index) - {id}
  {
  }

  lemma Extended<T>(pool: seq<Slot<T>>, index: map<nat, nat>)
    requires Indexed(pool, index)
    ensures Indexed(pool + [Free], index) && Visible(pool + [Free], index) == Visible(pool, index)
  {
  }

  /** The free list without its last slot, once that slot is live. */
  lemma ListedTaken<T>(pool: seq<Slot<T>>, free: seq<nat>, slot: Slot<T>)
    requires Listed(pool, free) && free != [] && slot.Live?
    ensures var n := |free| - 1; free[n] < |pool| && pool[free[n]].Free? && Listed(pool[free[n] := slot], free[..n])
  {
    var n := |free| - 1;
    var i := free[n];
    forall k | 0 <= k < |pool| && pool[i := slot][k].Free? ensures k in free[..n] {
      var m :| 0 <= m < |free| && free[m] == k;
      assert free[..n][m] == k;
    }
  }

  lemma ListedReturned<T>(pool: seq<Slot<T>>, free: seq<nat>, i: nat)
    requires Listed(pool, free) && i < |pool| && pool[i].Live?
    ensures Listed(pool[i := Free], free + [i])
  {
    forall k | 0 <= k < |pool| && pool[i := Free][k].Free? ensures k in free + [i] {
      if k != i {
        assert k in free;
      }
    }
  }

  lemma ListedGrown<T>(pool: seq<Slot<T>>, slot: Slot<T>)
    requires Listed(pool, [])
    ensures slot.Live? ==> Listed(pool + [slot], [])
    ensures slot.Free? ==> Listed(pool + [slot], [|pool|])
  {
    assert |pool| in [|pool|];
  }

  class StreamManager<T> {
    var pool: seq<Slot<T>>
    var free: seq<nat>
    var index: map<nat, nat>
    ghost var peak: nat // most streams ever live at once

    /** Live and free slots partition the pool, which is never more than one slot larger than it once had to be. */
    ghost predicate Valid()
      reads this
    {
      && Indexed(pool, index) && Listed(pool, free)
      && |index| <= MAX_INDEX && |index| <= peak
      && |pool| == |index| + |free| && |pool| <= peak + 1
    }

    ghost function Contents(): map<nat, T>
      requires Valid()
      reads this
    {
      Visible(pool, index)
    }

    constructor ()
      ensures Valid() && Contents() == map[] && peak == 0
    {
      pool, free, index, peak := [], [], map[], 0;
    }

    method Get(id: nat) returns (r: Option<T>)
      requires Valid()
      ensures r == if id in Contents() then Some(Contents()[id]) else None
    {
      if id !in index {
        return None;
      }
      r := Some(pool[index[id]].stream);
    }

    /** Refused if the id is taken or the index is full; nothing visible changes then. */
    method Create(id: nat, stream: T) returns (ok: bool)
      requires Valid()
      modifies this
      ensures Valid()
      ensures ok <==> id !in old(index) && |old(index)| < MAX_INDEX
      ensures Contents() == if ok then old(Contents())[id := stream] else old(Contents())
      ensures |index| == |old(index)| + if ok then 1 else 0
    {
      ghost var pool0, free0 := pool, free;
      hide Indexed, Listed, Visible;
      if id in index {
        return false;
      }
      var i: nat;
      if |free| > 0 {
        ListedTaken(pool, free, Live(id, stream));
        i := free[|free| - 1];
        free := free[..|free| - 1];
      } else {
        Extended(pool, index);
        ListedGrown(pool, Live(id, stream));
        ListedGrown(pool, Free);
        i := |pool|;
        pool := pool + [Free];
      }
      if |index| >= MAX_INDEX {
        free := free + [i];
        assert free == if free0 == [] then [|pool0|] else free0;
        return false;
      }
      Installed(pool, index, i, id, stream);
      pool := pool[i := Live(id, stream)];
      assert free0 == [] ==> pool == pool0 + [Live(id, stream)];
      index := index[id := i];
      peak := if |index| > peak then |index| else peak;
      ok := true;
    }

    method Remove(id: nat)
      requires Valid()
      modifies this
      ensures Valid() && Contents() == old(Contents()) - {id} && peak == old(peak)
    {
      hide Indexed, Listed, Visible;
      if id !in index {
        Unseen(pool, index, id);
        return;
      }
      LiveAt(pool, index, id);
      var i := index[id];
      Uninstalled(pool, index, id);
      ListedReturned(pool, free, i);
      Smaller(index, id);
      index := index - {id};
      pool := pool[i := Free];
      free := free + [i];
    }
  }

  lemma LiveAt<T>(pool: seq<Slot<T>>, index: map<nat, nat>, id: nat)
    requires Indexed(pool, index) && id in index
    ensures index[id] < |pool| && pool[index[id]].Live?
  {
  }

  lemma Unseen<T>(pool: seq<Slot<T>>, index: map<nat, nat>, id: nat)
    requires Indexed(pool, index) && id !in index
    ensures Visible(pool, index) - {id} == Visible(pool, index)
  {
  }

  lemma Smaller(m: map<nat, nat>, id: nat)
    requires id in m
    ensures |m - {id}| == |m| - 1
  {
    assert (m - {id}).Keys == m.Keys - {id};
  }
}
