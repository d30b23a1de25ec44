/**
 * The plant-list algebra both list managers apply: append, edit, water, delete,
 * move-and-renumber and sort-by-order, each a transformation of a sequence of plants.
 */
module PlantList {
  import opened Wrappers
  import opened Text
  import opened PlantModel

  function Ids(s: seq<Plant>): (r: seq<string>)
    ensures |r| == |s| && forall i :: 0 <= i < |s| ==> r[i] == s[i].id
  {
    seq(|s|, i requires 0 <= i < |s| => s[i].id)
  }

  /** No two plants share an id. */
  predicate UniqueIds(s: seq<Plant>) {
    forall i, j :: 0 <= i < j < |s| ==> s[i].id != s[j].id
  }

  /** The list order agrees with the `order` fields: sorting by order would not move anything. */
  predicate Ascending(s: seq<Plant>) {
    forall i, j :: 0 <= i < j < |s| ==> s[i].order <= s[j].order
  }

  /** Every plant's `order` is its index, so the orders are exactly 0..n-1. */
  predicate OrdersAreIndices(s: seq<Plant>) {
    forall i :: 0 <= i < |s| ==> s[i].order == i
  }

  // ---------------------------------------------------------------- add

  /** A plant created locally: its id is the creation instant printed in decimal. */
  function NewPlant(draft: PlantDraft, now: int, order: int): Plant {
    Plant(IntToDecimal(now), draft.name, draft.intervalDays, now, order)
  }

  /**
   * The add as both list managers perform it: one new plant appended, created
   * now, with the list's length as its order; the plants before it are untouched.
   */
  function AddAsWritten(s: seq<Plant>, draft: PlantDraft, now: int): (r: seq<Plant>)
    ensures |r| == |s| + 1 && r[..|s|] == s
    ensures r[|s|].name == draft.name && r[|s|].intervalDays == draft.intervalDays
    ensures r[|s|].lastWatered == now && r[|s|].id == IntToDecimal(now) && r[|s|].order == |s|
  {
    s + [NewPlant(draft, now, |s|)]
  }

  /** While no plant has been deleted since the orders were 0..n-1, the add keeps them 0..n. */
  lemma AddAsWrittenKeepsIndices(s: seq<Plant>, draft: PlantDraft, now: int)
    requires OrdersAreIndices(s)
    ensures OrdersAreIndices(AddAsWritten(s, draft, now)) && Ascending(AddAsWritten(s, draft, now))
  {
    var r := AddAsWritten(s, draft, now);
    forall i | 0 <= i < |r| ensures r[i].order == i {
      if i < |s| { assert r[i] == s[i]; }
    }
  }

  /** On a list numbered 0..n-1 the add as written and the corrected add agree. */
  lemma AddAsWrittenAgrees(s: seq<Plant>, draft: PlantDraft, now: int)
    requires OrdersAreIndices(s)
    ensures AddAsWritten(s, draft, now) == AddPlantEntry(s, draft, now)
  {
    NextOrderIsLength(s);
  }

  function Max(a: int, b: int): int {
    if a < b then b else a
  }

  /**
   * The order a new plant receives: the list's length, unless that would not
   * place it after the last plant (possible once plants have been deleted).
   */
  function NextOrder(s: seq<Plant>): (n: int)
    ensures n >= |s|
    ensures Ascending(s) ==> forall i :: 0 <= i < |s| ==> s[i].order < n
  {
    if s == [] then 0 else Max(|s|, s[|s| - 1].order + 1)
  }

  /** With orders 0..n-1 the next order is the length, as the app computes it. */
  lemma NextOrderIsLength(s: seq<Plant>)
    requires OrdersAreIndices(s)
    ensures NextOrder(s) == |s|
  {
  }

  /** The corrected add: appends one new plant after every order already used; everything before it is untouched. */
  function AddPlantEntry(s: seq<Plant>, draft: PlantDraft, now: int): (r: seq<Plant>)
    ensures |r| == |s| + 1 && r[..|s|] == s
    ensures r[|s|].name == draft.name && r[|s|].intervalDays == draft.intervalDays
    ensures r[|s|].lastWatered == now && r[|s|].id == IntToDecimal(now) && r[|s|].order == NextOrder(s)
  {
    s + [NewPlant(draft, now, NextOrder(s))]
  }

  /** Adding keeps the list order in agreement with the stored orders. */
  lemma AddKeepsAscending(s: seq<Plant>, draft: PlantDraft, now: int)
    requires Ascending(s)
    ensures Ascending(AddPlantEntry(s, draft, now))
  {
    var r := AddPlantEntry(s, draft, now);
    forall i, j | 0 <= i < j < |r| ensures r[i].order <= r[j].order {
      if j < |s| { assert r[i] == s[i] && r[j] == s[j]; }
    }
  }

  // ---------------------------------------------------------------- update and water

  /** `{ ...plant, ...edit }`: the keys present in the edit overwrite the plant's. */
  function Merge(p: Plant, edit: PlantEdit): (r: Plant)
    ensures r.id == p.id && r.lastWatered == p.lastWatered && r.order == p.order
    ensures edit.name.Some? ==> r.name == edit.name.value
    ensures edit.name.None? ==> r.name == p.name
    ensures edit.intervalDays.Some? ==> r.intervalDays == edit.intervalDays.value
    ensures edit.intervalDays.None? ==> r.intervalDays == p.intervalDays
  {
    p.(name := if edit.name.Some? then edit.name.value else p.name,
       intervalDays := if edit.intervalDays.Some? then edit.intervalDays.value else p.intervalDays)
  }

  /** Applies an edit to the plants with the given id; nothing else changes. */
  function UpdateById(s: seq<Plant>, id: string, edit: PlantEdit): (r: seq<Plant>)
    ensures |r| == |s|
    ensures forall i :: 0 <= i < |s| && s[i].id != id ==> r[i] == s[i]
    ensures forall i :: 0 <= i < |s| && s[i].id == id ==>
      r[i].id == s[i].id && r[i].lastWatered == s[i].lastWatered && r[i].order == s[i].order
      && r[i].name == (if edit.name.Some? then edit.name.value else s[i].name)
      && r[i].intervalDays == (if edit.intervalDays.Some? then edit.intervalDays.value else s[i].intervalDays)
  {
    seq(|s|, i requires 0 <= i < |s| => if s[i].id == id then Merge(s[i], edit) else s[i])
  }

  /** Stamps `now` as the last watering of the plants with the given id; nothing else changes. */
  function WaterById(s: seq<Plant>, id: string, now: int): (r: seq<Plant>)
    ensures |r| == |s|
    ensures forall i :: 0 <= i < |s| && s[i].id != id ==> r[i] == s[i]
    ensures forall i :: 0 <= i < |s| && s[i].id == id ==> r[i] == s[i].(lastWatered := now)
  {
    seq(|s|, i requires 0 <= i < |s| => if s[i].id == id then s[i].(lastWatered := now) else s[i])
  }

  /** Puts `p` in place of the plants with the given id (the record the server sent back). */
  function ReplaceById(s: seq<Plant>, id: string, p: Plant): (r: seq<Plant>)
    ensures |r| == |s|
    ensures forall i :: 0 <= i < |s| ==> r[i] == if s[i].id == id then p else s[i]
  {
    seq(|s|, i requires 0 <= i < |s| => if s[i].id == id then p else s[i])
  }

  /** Editing or watering an id that is not in the list leaves the list as it was. */
  lemma UnknownIdUnchanged(s: seq<Plant>, id: string, edit: PlantEdit, now: int, p: Plant)
    requires id !in Ids(s)
    ensures UpdateById(s, id, edit) == s
    ensures WaterById(s, id, now) == s
    ensures ReplaceById(s, id, p) == s
  {
    forall i | 0 <= i < |s| ensures s[i].id != id {
      assert Ids(s)[i] == s[i].id;
    }
  }

  /** Editing and watering keep ids and orders, so the list stays in order and ids stay unique. */
  lemma EditsKeepInvariants(s: seq<Plant>, id: string, edit: PlantEdit, now: int)
    ensures Ids(UpdateById(s, id, edit)) == Ids(s) && Ids(WaterById(s, id, now)) == Ids(s)
    ensures Ascending(s) ==> Ascending(UpdateById(s, id, edit)) && Ascending(WaterById(s, id, now))
    ensures UniqueIds(s) ==> UniqueIds(UpdateById(s, id, edit)) && UniqueIds(WaterById(s, id, now))
  {
    var u := UpdateById(s, id, edit);
    var w := WaterById(s, id, now);
    assert forall i :: 0 <= i < |s| ==> u[i].id == s[i].id && u[i].order == s[i].order;
    assert forall i :: 0 <= i < |s| ==> w[i].id == s[i].id && w[i].order == s[i].order;
  }

  /** Applying the same edit twice is the same as applying it once. */
  lemma UpdateIdempotent(s: seq<Plant>, id: string, edit: PlantEdit)
    ensures UpdateById(UpdateById(s, id, edit), id, edit) == UpdateById(s, id, edit)
  {
  }

  // ---------------------------------------------------------------- delete

  /** `filter(plant => plant.id !== id)` */
  function RemoveById(s: seq<Plant>, id: string): (r: seq<Plant>)
    ensures |r| <= |s|
    ensures forall i :: 0 <= i < |r| ==> r[i].id != id
  {
    if s == [] then []
    else if s[0].id == id then RemoveById(s[1..], id)
    else [s[0]] + RemoveById(s[1..], id)
  }

  /** Deleting works piecewise, so the plants that stay keep their relative order. */
  lemma {:induction false} RemoveDistributes(a: seq<Plant>, b: seq<Plant>, id: string)
    ensures RemoveById(a + b, id) == RemoveById(a, id) + RemoveById(b, id)
  {
    if a == [] {
      assert a + b == b;
    } else {
      assert (a + b)[0] == a[0] && (a + b)[1..] == a[1..] + b;
      RemoveDistributes(a[1..], b, id);
    }
  }

  /** Deleting an id that is not in the list leaves it unchanged. */
  lemma {:induction false} RemoveAbsent(s: seq<Plant>, id: string)
    requires forall i :: 0 <= i < |s| ==> s[i].id != id
    ensures RemoveById(s, id) == s
  {
    if s != [] {
      RemoveAbsent(s[1..], id);
    }
  }

  /** With unique ids, deleting the plant at index k removes exactly that one plant. */
  lemma RemoveUnique(s: seq<Plant>, k: nat)
    requires UniqueIds(s) && k < |s|
    ensures RemoveById(s, s[k].id) == s[..k] + s[k + 1..]
    ensures |RemoveById(s, s[k].id)| == |s| - 1
  {
    var id := s[k].id;
    assert s == s[..k] + ([s[k]] + s[k + 1..]);
    RemoveDistributes(s[..k], [s[k]] + s[k + 1..], id);
    RemoveDistributes([s[k]], s[k + 1..], id);
    RemoveAbsent(s[..k], id);
    RemoveAbsent(s[k + 1..], id);
    assert RemoveById([s[k]], id) == [];
  }

  /** Deleting twice is deleting once. */
  lemma RemoveIdempotent(s: seq<Plant>, id: string)
    ensures RemoveById(RemoveById(s, id), id) == RemoveById(s, id)
  {
    var r := RemoveById(s, id);
    RemoveMembership(s, id);
    forall i | 0 <= i < |r| ensures r[i].id != id {
      assert r[i] in r;
    }
    RemoveAbsent(r, id);
  }

  /** A plant is left after a delete exactly when it was in the list and has another id. */
  lemma {:induction false} RemoveMembership(s: seq<Plant>, id: string)
    ensures forall p :: p in RemoveById(s, id) <==> p in s && p.id != id
  {
    if s != [] {
      RemoveMembership(s[1..], id);
      assert forall p :: p in s <==> p == s[0] || p in s[1..];
    }
  }

  /** A property every plant of the list has, every plant left after a delete has. */
  lemma {:induction false} RemoveKeepsAll(s: seq<Plant>, id: string, P: Plant -> bool)
    requires forall k :: 0 <= k < |s| ==> P(s[k])
    ensures forall k :: 0 <= k < |RemoveById(s, id)| ==> P(RemoveById(s, id)[k])
  {
    if s != [] {
      RemoveKeepsAll(s[1..], id, P);
      if s[0].id != id {
        var r := RemoveById(s, id);
        var rt := RemoveById(s[1..], id);
        assert r == [s[0]] + rt;
        forall k | 0 <= k < |r| ensures P(r[k]) {
          if k > 0 { assert r[k] == rt[k - 1]; }
        }
      }
    }
  }

  /** Deleting keeps the remaining plants in order. */
  lemma {:induction false} RemoveKeepsAscending(s: seq<Plant>, id: string)
    requires Ascending(s)
    ensures Ascending(RemoveById(s, id))
  {
    if s != [] {
      var tail := s[1..];
      RemoveKeepsAscending(tail, id);
      if s[0].id != id {
        var first := s[0];
        assert forall k :: 0 <= k < |tail| ==> first.order <= tail[k].order by {
          forall k | 0 <= k < |tail| ensures first.order <= tail[k].order {
            assert tail[k] == s[k + 1];
          }
        }
        RemoveKeepsAll(tail, id, (p: Plant) => first.order <= p.order);
        var rt := RemoveById(tail, id);
        var r := [first] + rt;
        assert r == RemoveById(s, id);
        forall i, j | 0 <= i < j < |r| ensures r[i].order <= r[j].order {
          assert r[j] == rt[j - 1];
          if i > 0 { assert r[i] == rt[i - 1]; }
        }
      }
    }
  }

  /** Deleting keeps ids unique. */
  lemma {:induction false} RemoveKeepsUniqueIds(s: seq<Plant>, id: string)
    requires UniqueIds(s)
    ensures UniqueIds(RemoveById(s, id))
  {
    if s != [] {
      var tail := s[1..];
      RemoveKeepsUniqueIds(tail, id);
      if s[0].id != id {
        var first := s[0];
        assert forall k :: 0 <= k < |tail| ==> first.id != tail[k].id by {
          forall k | 0 <= k < |tail| ensures first.id != tail[k].id {
            assert tail[k] == s[k + 1];
          }
        }
        RemoveKeepsAll(tail, id, (p: Plant) => first.id != p.id);
        var rt := RemoveById(tail, id);
        var r := [first] + rt;
        assert r == RemoveById(s, id);
        forall i, j | 0 <= i < j < |r| ensures r[i].id != r[j].id {
          assert r[j] == rt[j - 1];
          if i > 0 { assert r[i] == rt[i - 1]; }
        }
      }
    }
  }

  /** Adding a plant and then deleting it by its (fresh) id gives back the original list. */
  lemma AddThenRemove(s: seq<Plant>, draft: PlantDraft, now: int)
    requires IntToDecimal(now) !in Ids(s)
    ensures RemoveById(AddAsWritten(s, draft, now), IntToDecimal(now)) == s
  {
    var id := IntToDecimal(now);
    forall i | 0 <= i < |s| ensures s[i].id != id {
      assert Ids(s)[i] == s[i].id;
    }
    RemoveDistributes(s, [NewPlant(draft, now, |s|)], id);
    RemoveAbsent(s, id);
    assert s + [] == s;
  }

  // ---------------------------------------------------------------- reorder

  /** How `Array.prototype.splice` reads its start index: negative counts from the end, then clamp to [0, len]. */
  function SpliceIndex(start: int, len: nat): (k: nat)
    ensures k <= len
    ensures 0 <= start <= len ==> k == start
  {
    if start < 0 then (if len + start < 0 then 0 else len + start)
    else if start > len then len
    else start
  }

  function RemoveAt(s: seq<Plant>, k: nat): (r: seq<Plant>)
    requires k < |s|
    ensures |r| == |s| - 1
  {
    s[..k] + s[k + 1..]
  }

  /** Takes out the plant at index k and inserts it at `to`, read against the shortened list. */
  function Move(s: seq<Plant>, k: nat, to: int): (r: seq<Plant>)
    requires k < |s|
    ensures |r| == |s|
    ensures r[SpliceIndex(to, |s| - 1)] == s[k]
  {
    var rest := RemoveAt(s, k);
    var j := SpliceIndex(to, |rest|);
    rest[..j] + [s[k]] + rest[j..]
  }

  /** Taking the moved plant out again gives the list with it taken out of its old place. */
  lemma MoveKeepsOthersInOrder(s: seq<Plant>, k: nat, to: int)
    requires k < |s|
    ensures RemoveAt(Move(s, k, to), SpliceIndex(to, |s| - 1)) == RemoveAt(s, k)
  {
    var rest := RemoveAt(s, k);
    var j := SpliceIndex(to, |rest|);
    var r := rest[..j] + [s[k]] + rest[j..];
    assert r == Move(s, k, to);
    assert r[..j] == rest[..j] && r[j + 1..] == rest[j..];
    assert rest[..j] + rest[j..] == rest;
  }

  /** Moving is a permutation. */
  lemma MovePermutes(s: seq<Plant>, k: nat, to: int)
    requires k < |s|
    ensures multiset(Move(s, k, to)) == multiset(s)
  {
    var rest := RemoveAt(s, k);
    RemoveAtPermutes(s, k);
    InsertPermutes(rest, s[k], SpliceIndex(to, |rest|));
  }

  lemma RemoveAtPermutes(s: seq<Plant>, k: nat)
    requires k < |s|
    ensures multiset(RemoveAt(s, k)) + multiset{s[k]} == multiset(s)
  {
    assert s == s[..k] + [s[k]] + s[k + 1..];
  }

  lemma InsertPermutes(r: seq<Plant>, x: Plant, j: nat)
    requires j <= |r|
    ensures multiset(r[..j] + [x] + r[j..]) == multiset(r) + multiset{x}
  {
    assert r == r[..j] + r[j..];
  }

  /** `map((plant, index) => ({ ...plant, order: index }))` */
  function Renumber(s: seq<Plant>): (r: seq<Plant>)
    ensures |r| == |s| && OrdersAreIndices(r)
    ensures forall i :: 0 <= i < |s| ==> r[i] == s[i].(order := i)
  {
    seq(|s|, i requires 0 <= i < |s| => s[i].(order := i))
  }

  /**
   * Moves the plant at `from` to `to` and renumbers every order to its index.
   * A `from` that names no plant moves nothing (see ReorderAsWritten for the code as written).
   */
  function Reorder(s: seq<Plant>, from: int, to: int): (r: seq<Plant>)
    ensures |r| == |s| && OrdersAreIndices(r) && Ascending(r)
  {
    var k := SpliceIndex(from, |s|);
    Renumber(if k < |s| then Move(s, k, to) else s)
  }

  /** A plant with its position forgotten. */
  function Unplaced(p: Plant): Plant {
    p.(order := 0)
  }

  function UnplacedAll(s: seq<Plant>): (r: seq<Plant>)
    ensures |r| == |s| && forall i :: 0 <= i < |s| ==> r[i] == Unplaced(s[i])
  {
    seq(|s|, i requires 0 <= i < |s| => Unplaced(s[i]))
  }

  /** Forgetting positions commutes with taking a plant out. */
  lemma UnplacedRemoveAt(s: seq<Plant>, k: nat)
    requires k < |s|
    ensures UnplacedAll(RemoveAt(s, k)) == RemoveAt(UnplacedAll(s), k)
  {
    var u := UnplacedAll(s);
    forall i | 0 <= i < |s| - 1 ensures UnplacedAll(RemoveAt(s, k))[i] == RemoveAt(u, k)[i] {
      if i < k {
        assert RemoveAt(s, k)[i] == s[i] && RemoveAt(u, k)[i] == u[i];
      } else {
        assert RemoveAt(s, k)[i] == s[i + 1] && RemoveAt(u, k)[i] == u[i + 1];
      }
    }
  }

  /** Forgetting positions commutes with putting a plant in. */
  lemma UnplacedInsert(r: seq<Plant>, x: Plant, j: nat)
    requires j <= |r|
    ensures UnplacedAll(r[..j] + [x] + r[j..]) == UnplacedAll(r)[..j] + [Unplaced(x)] + UnplacedAll(r)[j..]
  {
    var m := r[..j] + [x] + r[j..];
    var u := UnplacedAll(r);
    var mu := u[..j] + [Unplaced(x)] + u[j..];
    forall i | 0 <= i < |m| ensures UnplacedAll(m)[i] == mu[i] {
      if i < j {
        assert m[i] == r[i] && mu[i] == u[i];
      } else if i > j {
        assert m[i] == r[i - 1] && mu[i] == u[i - 1];
      }
    }
  }

  /** Forgetting positions commutes with moving. */
  lemma UnplacedMove(s: seq<Plant>, k: nat, to: int)
    requires k < |s|
    ensures UnplacedAll(Move(s, k, to)) == Move(UnplacedAll(s), k, to)
  {
    var rest := RemoveAt(s, k);
    UnplacedRemoveAt(s, k);
    UnplacedInsert(rest, s[k], SpliceIndex(to, |rest|));
  }

  /**
   * Reordering is a permutation of the plants (up to their new orders), and the
   * plant at `from` ends up at index `to` of the result.
   */
  lemma ReorderPermutes(s: seq<Plant>, from: int, to: int)
    ensures multiset(UnplacedAll(Reorder(s, from, to))) == multiset(UnplacedAll(s))
    ensures SpliceIndex(from, |s|) < |s| ==>
      var j := SpliceIndex(to, |s| - 1);
      Reorder(s, from, to)[j] == s[SpliceIndex(from, |s|)].(order := j)
  {
    var k := SpliceIndex(from, |s|);
    var m := if k < |s| then Move(s, k, to) else s;
    assert UnplacedAll(Renumber(m)) == UnplacedAll(m);
    if k < |s| {
      UnplacedMove(s, k, to);
      MovePermutes(UnplacedAll(s), k, to);
    }
  }

  /** Reordering keeps ids unique. */
  lemma ReorderKeepsUniqueIds(s: seq<Plant>, from: int, to: int)
    requires UniqueIds(s)
    ensures UniqueIds(Reorder(s, from, to))
  {
    var r := Reorder(s, from, to);
    var k := SpliceIndex(from, |s|);
    if k < |s| {
      var m := Move(s, k, to);
      MovePermutes(s, k, to);
      forall i, j | 0 <= i < j < |r| ensures r[i].id != r[j].id {
        assert r[i].id == m[i].id && r[j].id == m[j].id;
        MultisetDistinct(s, m, i, j);
      }
    }
  }

  /** In a list with unique ids every plant occurs once. */
  lemma {:induction false} OccursOnce(s: seq<Plant>, a: nat)
    requires UniqueIds(s) && a < |s|
    ensures multiset(s)[s[a]] == 1
  {
    assert s == s[..a] + [s[a]] + s[a + 1..];
    var rest := s[..a] + s[a + 1..];
    forall c | 0 <= c < |rest| ensures rest[c] != s[a] {
      if c < a { assert rest[c] == s[c]; } else { assert rest[c] == s[c + 1]; }
    }
    assert multiset(s) == multiset(rest) + multiset{s[a]};
  }

  /** A plant found at two positions occurs at least twice. */
  lemma OccursTwice(m: seq<Plant>, i: nat, j: nat)
    requires i < j < |m|
    ensures m[i] == m[j] ==> multiset(m)[m[i]] >= 2
  {
    assert m == m[..i] + [m[i]] + (m[i + 1..j] + [m[j]] + m[j + 1..]);
  }

  /** Two positions of a permutation of a list with unique ids hold different ids. */
  lemma MultisetDistinct(s: seq<Plant>, m: seq<Plant>, i: nat, j: nat)
    requires UniqueIds(s) && multiset(m) == multiset(s) && i < j < |m|
    ensures m[i].id != m[j].id
  {
    assert m[i] in multiset(s) && m[j] in multiset(s);
    var a :| 0 <= a < |s| && s[a] == m[i];
    var b :| 0 <= b < |s| && s[b] == m[j];
    OccursOnce(s, a);
    OccursTwice(m, i, j);
  }

  /** Reordering an index onto itself only renumbers; on a list already numbered 0..n-1 it changes nothing. */
  lemma ReorderSameIndex(s: seq<Plant>, i: nat)
    requires i < |s|
    ensures Reorder(s, i, i) == Renumber(s)
    ensures OrdersAreIndices(s) ==> Reorder(s, i, i) == s
  {
    assert Move(s, i, i) == s[..i] + [s[i]] + s[i + 1..];
    assert s[..i] + [s[i]] + s[i + 1..] == s;
  }

  lemma MoveExample(a: Plant, b: Plant, c: Plant, d: Plant)
    ensures Move([a, b, c, d], 0, 2) == [b, c, a, d]
  {
    var rest := RemoveAt([a, b, c, d], 0);
    assert rest == [b, c, d];
    assert rest[..2] == [b, c] && rest[2..] == [d];
  }

  /** [A, B, C, D] with A moved from 0 to 2 becomes [B, C, A, D], renumbered 0..3. */
  lemma ReorderExample(a: Plant, b: Plant, c: Plant, d: Plant)
    ensures Reorder([a, b, c, d], 0, 2)
      == [b.(order := 0), c.(order := 1), a.(order := 2), d.(order := 3)]
  {
    MoveExample(a, b, c, d);
    var r := Renumber([b, c, a, d]);
    assert r[0] == b.(order := 0) && r[1] == c.(order := 1) && r[2] == a.(order := 2) && r[3] == d.(order := 3);
  }

  // ---------------------------------------------------------------- reorder as written

  /**
   * An element of the list the reorder code builds: a plant, or the object
   * `{ ...undefined, order: index }` it creates when `splice` removed nothing.
   */
  datatype Slot = Filled(plant: Plant) | OrderOnly(order: int)

  /** The order an element of the built list carries. */
  function SlotOrder(slot: Slot): int {
    match slot
    case Filled(p) => p.order
    case OrderOnly(order) => order
  }

  /** The reorder exactly as written: a `from` that names no plant inserts `undefined`. */
  function ReorderAsWritten(s: seq<Plant>, from: int, to: int): (r: seq<Slot>)
    ensures |r| == if SpliceIndex(from, |s|) < |s| then |s| else |s| + 1
    ensures forall i :: 0 <= i < |r| ==> SlotOrder(r[i]) == i
  {
    var k := SpliceIndex(from, |s|);
    var removed: Option<Plant> := if k < |s| then Some(s[k]) else None;
    var rest := if k < |s| then RemoveAt(s, k) else s;
    var j := SpliceIndex(to, |rest|);
    var spliced := Lift(rest[..j]) + [removed] + Lift(rest[j..]);
    seq(|spliced|, i requires 0 <= i < |spliced| =>
      if spliced[i].Some? then Filled(spliced[i].value.(order := i)) else OrderOnly(i))
  }

  function Lift(s: seq<Plant>): (r: seq<Option<Plant>>)
    ensures |r| == |s| && forall i :: 0 <= i < |s| ==> r[i] == Some(s[i])
  {
    seq(|s|, i requires 0 <= i < |s| => Some(s[i]))
  }

  /** When `from` names a plant, the code as written and Reorder agree. */
  lemma ReorderAsWrittenAgrees(s: seq<Plant>, from: int, to: int)
    requires SpliceIndex(from, |s|) < |s|
    ensures var r := Reorder(s, from, to);
            ReorderAsWritten(s, from, to) == seq(|r|, i requires 0 <= i < |r| => Filled(r[i]))
  {
    var k := SpliceIndex(from, |s|);
    var rest := RemoveAt(s, k);
    var j := SpliceIndex(to, |rest|);
    var spliced := Lift(rest[..j]) + [Some(s[k])] + Lift(rest[j..]);
    var m := Move(s, k, to);
    assert m == rest[..j] + [s[k]] + rest[j..];
    assert spliced == Lift(m) by {
      forall i | 0 <= i < |m| ensures spliced[i] == Some(m[i]) {
        if i < j { assert spliced[i] == Lift(rest[..j])[i]; }
        else if i > j { assert spliced[i] == Lift(rest[j..])[i - j - 1]; }
      }
    }
  }

  /** A one-plant list and a drop from index 1: the result holds two records, one with no id. */
  lemma ReorderAsWrittenInsertsPhantom(a: Plant)
    ensures ReorderAsWritten([a], 1, 0) == [OrderOnly(0), Filled(a.(order := 1))]
    ensures |Reorder([a], 1, 0)| == 1
  {
    assert Lift([a][..0]) == [] && Lift([a][0..]) == [Some(a)];
  }

  // ---------------------------------------------------------------- sort on load

  /** Inserts x before the first plant whose order is at least x's, which keeps the sort stable. */
  function InsertByOrder(x: Plant, t: seq<Plant>): (r: seq<Plant>)
    ensures multiset(r) == multiset(t) + multiset{x}
  {
    if t == [] || x.order <= t[0].order then [x] + t
    else
      assert t == [t[0]] + t[1..];
      [t[0]] + InsertByOrder(x, t[1..])
  }

  /** Inserting a plant no earlier than a bound into plants no earlier than it keeps them all no earlier. */
  lemma {:induction false} InsertKeepsLowerBound(x: Plant, t: seq<Plant>, low: int)
    requires low <= x.order
    requires forall i :: 0 <= i < |t| ==> low <= t[i].order
    ensures forall i :: 0 <= i < |InsertByOrder(x, t)| ==> low <= InsertByOrder(x, t)[i].order
  {
    if t != [] && x.order > t[0].order {
      InsertKeepsLowerBound(x, t[1..], low);
    }
  }

  /** Inserting into a list sorted by order keeps it sorted. */
  lemma {:induction false} InsertKeepsAscending(x: Plant, t: seq<Plant>)
    requires Ascending(t)
    ensures Ascending(InsertByOrder(x, t))
  {
    if t != [] && x.order > t[0].order {
      var rest := t[1..];
      assert Ascending(rest) && forall i :: 0 <= i < |rest| ==> t[0].order <= rest[i].order by {
        assert forall i :: 0 <= i < |rest| ==> rest[i] == t[i + 1];
      }
      InsertKeepsAscending(x, rest);
      InsertKeepsLowerBound(x, rest, t[0].order);
      var tail := InsertByOrder(x, rest);
      var r := [t[0]] + tail;
      forall i, j | 0 <= i < j < |r| ensures r[i].order <= r[j].order {
        assert r[j] == tail[j - 1];
        if i > 0 {
          assert r[i] == tail[i - 1];
        }
      }
    }
  }

  /** `sort((a, b) => a.order - b.order)`: a stable insertion sort by order. */
  function SortByOrder(s: seq<Plant>): (r: seq<Plant>)
    ensures Ascending(r) && multiset(r) == multiset(s)
  {
    if s == [] then []
    else
      assert s == [s[0]] + s[1..];
      InsertKeepsAscending(s[0], SortByOrder(s[1..]));
      InsertByOrder(s[0], SortByOrder(s[1..]))
  }

  /** Sorting a list that is already in order changes nothing: reloading shows the same list. */
  lemma {:induction false} SortOfAscending(s: seq<Plant>)
    requires Ascending(s)
    ensures SortByOrder(s) == s
  {
    if s != [] {
      SortOfAscending(s[1..]);
      assert s == [s[0]] + s[1..];
    }
  }

  // ---------------------------------------------------------------- the add as written

  /**
   * Three plants deleted from the front of [A0, B1, C2, D3] leave [D3]; adding E then gives it
   * order 1, so a reload sorts E before D although it was added after it.
   */
  lemma AddAsWrittenReloadsOutOfOrder(d: Plant, draft: PlantDraft, now: int)
    requires d.order == 3
    ensures var added := AddAsWritten([d], draft, now);
            Ascending([d]) && !Ascending(added) && SortByOrder(added) == [added[1], d]
  {
    var added := AddAsWritten([d], draft, now);
    var e := NewPlant(draft, now, 1);
    assert added == [d, e];
    assert added[0].order > added[1].order;
    assert SortByOrder([e]) == [e];
    assert added[1..] == [e];
    assert SortByOrder(added) == InsertByOrder(d, [e]);
    assert InsertByOrder(d, [e]) == [e] + InsertByOrder(d, []);
  }
}
