/** The per-call accumulator of recommendation candidates: an insertion-ordered
    map from supplement id to {catalog item, running score, distinct reasons}.
    `WithAdded` and `WithLowered` specify its two updates; `CandidateMap` is the
    mutable map the engine updates in place. */
module Candidates {
  import opened Wrappers
  import Catalog

  /** One entry of the map. The source stores the catalog item itself; since the catalog is
      constant and the entry is keyed by the item's id, the id stands for the item here and
      the item is looked up when the output is built. */
  datatype Candidate = Candidate(id: string, score: int, reasons: seq<string>)

  /** An insertion-ordered map: `order` lists the keys of `table` in first-insertion order. */
  datatype Acc = Acc(order: seq<string>, table: map<string, Candidate>)

  const Empty: Acc := Acc([], map[])

  /** The accumulator invariant: the key order matches the table, every key is a
      catalog id whose catalog entry is the stored item, and every entry has at
      least one reason and no reason twice. */
  predicate WellFormed(acc: Acc) {
    Distinct(acc.order) &&
    (forall k :: k in acc.order ==> k in acc.table) &&
    (forall k :: k in acc.table ==> k in acc.order) &&
    (forall k :: k in acc.table ==> EntryOk(k, acc.table[k]))
  }

  /** An entry stored under key `k`: a catalog id equal to `k`, at least one reason, no reason twice. */
  predicate EntryOk(k: string, c: Candidate) {
    k in Catalog.CatalogIds && c.id == k && c.reasons != [] && Distinct(c.reasons)
  }

  /** `b` differs from `a` at most in the entries for `ids`: no other key appears and every
      other entry keeps its value. */
  predicate Frame(a: Acc, b: Acc, ids: set<string>) {
    (forall k :: k in b.table ==> k in a.table || k in ids) &&
    (forall k :: k in a.table && k !in ids ==> k in b.table && b.table[k] == a.table[k])
  }

  /** No entry has a negative score. */
  predicate NonNegative(acc: Acc) {
    forall k :: k in acc.table ==> acc.table[k].score >= 0
  }

  lemma EmptyValid()
    ensures WellFormed(Empty) && NonNegative(Empty)
  {
  }

  /** `addScore(id, weight, reason)`: ignores ids absent from the catalog; otherwise
      creates the entry at the end of the order if needed, adds the weight, and
      appends the reason unless it is already listed. */
  function WithAdded(acc: Acc, id: string, weight: int, reason: string): (r: Acc)
    requires WellFormed(acc)
    ensures WellFormed(r)
    ensures Frame(acc, r, {id})
    ensures NonNegative(acc) && weight >= 0 ==> NonNegative(r)
    ensures id in Catalog.CatalogIds ==>
      id in r.table && r.table[id].score == (if id in acc.table then acc.table[id].score else 0) + weight
  {
    if id !in Catalog.CatalogIds then acc
    else if id in acc.table then
      var cur := acc.table[id];
      var reasons := if reason in cur.reasons then cur.reasons else cur.reasons + [reason];
      assert EntryOk(id, cur);
      UpdateKeepsWellFormed(acc, id, cur.(score := cur.score + weight, reasons := reasons));
      Acc(acc.order, acc.table[id := cur.(score := cur.score + weight, reasons := reasons)])
    else
      InsertKeepsWellFormed(acc, id, Candidate(id, weight, [reason]));
      Acc(acc.order + [id], acc.table[id := Candidate(id, weight, [reason])])
  }

  /** Replacing an entry by a valid one keeps the map well formed. */
  lemma UpdateKeepsWellFormed(acc: Acc, id: string, c: Candidate)
    requires WellFormed(acc) && id in acc.table && EntryOk(id, c)
    ensures WellFormed(Acc(acc.order, acc.table[id := c]))
  {
  }

  /** Adding a valid entry under a new key at the end of the order keeps the map well formed. */
  lemma InsertKeepsWellFormed(acc: Acc, id: string, c: Candidate)
    requires WellFormed(acc) && id !in acc.table && EntryOk(id, c)
    ensures WellFormed(Acc(acc.order + [id], acc.table[id := c]))
  {
    assert forall k :: k in acc.order ==> k != id;
  }

  /** What one `addScore` call does to a well-formed map: nothing for an id outside the
      catalog; for a present id, the same keys in the same order, the weight added and
      the reason appended unless already listed; for a new catalog id, an entry with just
      this weight and reason at the end of the order. No other entry changes. */
  lemma AddedEffect(acc: Acc, id: string, weight: int, reason: string)
    requires WellFormed(acc)
    ensures var r := WithAdded(acc, id, weight, reason);
      (id !in Catalog.CatalogIds ==> r == acc) &&
      (id in Catalog.CatalogIds && id in acc.table ==>
        r.order == acc.order &&
        r.table.Keys == acc.table.Keys &&
        r.table[id] == Candidate(id, acc.table[id].score + weight,
          if reason in acc.table[id].reasons then acc.table[id].reasons
          else acc.table[id].reasons + [reason])) &&
      (id in Catalog.CatalogIds && id !in acc.table ==>
        r.order == acc.order + [id] &&
        r.table.Keys == acc.table.Keys + {id} &&
        r.table[id] == Candidate(id, weight, [reason])) &&
      (forall k :: k in acc.table && k != id ==> k in r.table && r.table[k] == acc.table[k])
  {
    if id in Catalog.CatalogIds {
      if id in acc.table {
        AddedPresent(acc, id, weight, reason);
      } else {
        AddedAbsent(acc, id, weight, reason);
      }
    }
  }

  lemma AddedPresent(acc: Acc, id: string, weight: int, reason: string)
    requires WellFormed(acc) && id in Catalog.CatalogIds && id in acc.table
    ensures var cur := acc.table[id];
      WithAdded(acc, id, weight, reason) == Acc(acc.order, acc.table[id := cur.(score := cur.score + weight,
        reasons := if reason in cur.reasons then cur.reasons else cur.reasons + [reason])])
  {
    assert EntryOk(id, acc.table[id]);
  }

  lemma AddedAbsent(acc: Acc, id: string, weight: int, reason: string)
    requires WellFormed(acc) && id in Catalog.CatalogIds && id !in acc.table
    ensures WithAdded(acc, id, weight, reason) == Acc(acc.order + [id], acc.table[id := Candidate(id, weight, [reason])])
  {
  }

  /** The in-place decrement of the gap analysis: lowers the score of an existing entry
      and never creates one; keys, order and reasons stay as they were. */
  function WithLowered(acc: Acc, id: string, amount: int): (r: Acc)
    ensures r.order == acc.order && r.table.Keys == acc.table.Keys
    ensures id !in acc.table ==> r == acc
    ensures id in acc.table ==>
      r.table[id] == acc.table[id].(score := acc.table[id].score - amount)
    ensures forall k :: k in acc.table && k != id ==> r.table[k] == acc.table[k]
  {
    if id in acc.table then
      var cur := acc.table[id];
      Acc(acc.order, acc.table[id := cur.(score := cur.score - amount)])
    else
      acc
  }

  /** Lowering a score keeps the map well formed. */
  lemma LoweredKeepsWellFormed(acc: Acc, id: string, amount: int)
    requires WellFormed(acc)
    ensures WellFormed(WithLowered(acc, id, amount))
  {
    if id in acc.table {
      assert EntryOk(id, acc.table[id]);
      UpdateKeepsWellFormed(acc, id, acc.table[id].(score := acc.table[id].score - amount));
    }
  }

  /** An entry outside the touched ids is kept as it was. */
  lemma FrameKeeps(a: Acc, b: Acc, ids: set<string>, k: string)
    requires Frame(a, b, ids) && k !in ids && k in a.table
    ensures k in b.table && b.table[k] == a.table[k]
  {
  }

  /** A key outside the touched ids that `a` lacks, `b` lacks too. */
  lemma FrameAbsent(a: Acc, b: Acc, ids: set<string>, k: string)
    requires Frame(a, b, ids) && k !in ids && k !in a.table
    ensures k !in b.table
  {
  }

  /** `Array.from(candidates.values())`: the entries in key insertion order. */
  function Values(acc: Acc): (vs: seq<Candidate>)
    requires WellFormed(acc)
    ensures |vs| == |acc.order|
    ensures forall i :: 0 <= i < |vs| ==> vs[i] == acc.table[acc.order[i]]
  {
    seq(|acc.order|, i requires 0 <= i < |acc.order| => acc.table[acc.order[i]])
  }

  /** No two candidates of `s` share an id. */
  predicate UniqueIds(s: seq<Candidate>) {
    forall i, j :: 0 <= i < j < |s| ==> s[i].id != s[j].id
  }

  /** The values of a valid accumulator carry distinct catalog ids, each with a non-empty list
      of distinct reasons. */
  lemma ValuesWellFormed(acc: Acc)
    requires WellFormed(acc)
    ensures forall c :: c in Values(acc) ==>
      c.id in Catalog.CatalogIds && c.id in acc.table && acc.table[c.id] == c &&
      c.reasons != [] && Distinct(c.reasons)
    ensures UniqueIds(Values(acc))
  {
    var vs := Values(acc);
    forall c | c in vs
      ensures c.id in Catalog.CatalogIds && c.id in acc.table && acc.table[c.id] == c &&
        c.reasons != [] && Distinct(c.reasons)
    {
      var i :| 0 <= i < |vs| && vs[i] == c;
      assert EntryOk(acc.order[i], c);
    }
    forall i, j | 0 <= i < j < |vs| ensures vs[i].id != vs[j].id {
      assert EntryOk(acc.order[i], vs[i]) && EntryOk(acc.order[j], vs[j]);
    }
  }

  /** The candidates map of one evaluation. It is created empty and only changed by
      `AddScore` and `Lower`. */
  class CandidateMap {
    var order: seq<string>
    var table: map<string, Candidate>

    function State(): Acc
      reads this
    {
      Acc(order, table)
    }

    constructor ()
      ensures State() == Empty
    {
      order := [];
      table := map[];
    }

    /** `addScore`: look the id up in the catalog, fetch or create the entry, add the
        weight, append the reason unless present, and store the entry back. */
    method AddScore(id: string, weight: int, reason: string)
      requires WellFormed(State())
      modifies this
      ensures State() == WithAdded(old(State()), id, weight, reason)
    {
      // SUPPLEMENTS_DB.find misses exactly when the id is not a catalog id (Catalog.Find).
      if id !in Catalog.CatalogIds {
        return;
      }
      var current := Candidate(id, 0, []);
      if id in table {
        current := table[id];
      }
      current := current.(score := current.score + weight);
      if reason !in current.reasons {
        current := current.(reasons := current.reasons + [reason]);
      }
      // Map.set keeps the position of a key that is already present.
      if id !in table {
        order := order + [id];
      }
      table := table[id := current];
      ghost var expected := WithAdded(old(State()), id, weight, reason);
      assert order == expected.order;
      assert current == expected.table[id];
      assert table == expected.table;
    }

    /** `const c = candidates.get(id); if (c) c.score -= amount`. */
    method Lower(id: string, amount: int)
      modifies this
      ensures State() == WithLowered(old(State()), id, amount)
    {
      if id in table {
        var current := table[id];
        table := table[id := current.(score := current.score - amount)];
      }
    }
  }
}
