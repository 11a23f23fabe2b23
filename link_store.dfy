/** The link store both backends talk to, reduced to its contract: a table
    keyed by the short hash whose writes are insert-if-absent (the unique
    constraint `urls_hash_uniq` of the relational table, the condition
    `attribute_not_exists(hashId)` of the document table), a point lookup,
    an ordered listing and a full scan. Insertion order stands for the
    relational table's serial `id` column. */
module LinkStore {
  import opened Common

  predicate Distinct(keys: seq<string>) {
    forall i, j :: 0 <= i < j < |keys| ==> keys[i] != keys[j]
  }

  function Reverse<V>(s: seq<V>): (r: seq<V>)
    ensures |r| == |s|
  {
    if s == [] then [] else Reverse(s[1..]) + [s[0]]
  }

  lemma {:induction false} ReverseAt<V>(s: seq<V>, k: nat)
    requires k < |s|
    ensures Reverse(s)[k] == s[|s| - 1 - k]
  {
    if k < |s| - 1 {
      ReverseAt(s[1..], k);
    }
  }

  /** The first `n` elements (all of them when there are fewer): `LIMIT n`. */
  function Take<V>(s: seq<V>, n: nat): (r: seq<V>)
    ensures |r| == Min(n, |s|)
    ensures forall i :: 0 <= i < |r| ==> r[i] == s[i]
  {
    if n < |s| then s[..n] else s
  }

  /** The records of `keys`, in the order of `keys`. */
  function Project<V>(keys: seq<string>, records: map<string, V>): (r: seq<V>)
    requires forall k :: k in keys ==> k in records
    ensures |r| == |keys|
    ensures forall i :: 0 <= i < |r| ==> r[i] == records[keys[i]]
  {
    if keys == [] then [] else [records[keys[0]]] + Project(keys[1..], records)
  }

  /** `ORDER BY id DESC OFFSET 0 LIMIT limit` over the table. */
  function NewestFirst<V>(order: seq<string>, records: map<string, V>, limit: nat): seq<V>
    requires forall k :: k in order ==> k in records
  {
    Take(Reverse(Project(order, records)), limit)
  }

  /** The listing holds the `limit` most recently inserted records (or all of
      them), the newest first. */
  lemma NewestFirstAt<V>(order: seq<string>, records: map<string, V>, limit: nat)
    requires forall k :: k in order ==> k in records
    ensures |NewestFirst(order, records, limit)| == Min(limit, |order|)
    ensures forall i :: 0 <= i < |NewestFirst(order, records, limit)| ==>
      NewestFirst(order, records, limit)[i] == records[order[|order| - 1 - i]]
  {
    var all := Project(order, records);
    forall i | 0 <= i < |NewestFirst(order, records, limit)|
      ensures NewestFirst(order, records, limit)[i] == records[order[|order| - 1 - i]]
    {
      ReverseAt(all, i);
    }
  }

  /** A list of distinct keys has as many elements as the set it spans. */
  lemma {:induction false} DistinctCount(keys: seq<string>, domain: set<string>)
    requires Distinct(keys)
    requires forall k :: k in domain <==> k in keys
    ensures |domain| == |keys|
  {
    if keys != [] {
      var n := |keys| - 1;
      var last := keys[n];
      var init := keys[..n];
      assert keys == init + [last];
      forall k
        ensures k in domain - {last} <==> k in init
      {
        if k in init {
          var i :| 0 <= i < n && init[i] == k;
          assert keys[i] == k;
        }
      }
      DistinctCount(init, domain - {last});
    }
  }

  class Table<V(==)> {
    /** The stored records, by hash. */
    var records: map<string, V>
    /** Every stored hash once, oldest first. */
    var order: seq<string>

    ghost predicate Valid()
      reads this
    {
      Distinct(order) && forall k :: k in records <==> k in order
    }

    constructor ()
      ensures Valid()
      ensures records == map[] && order == []
    {
      records := map[];
      order := [];
    }

    /** The conditional write: adds exactly one record when `key` is free,
        and otherwise reports the conflict and changes nothing. */
    method InsertIfAbsent(key: string, record: V) returns (inserted: bool)
      requires Valid()
      modifies this
      ensures Valid()
      ensures inserted <==> key !in old(records)
      ensures inserted ==> records == old(records)[key := record] && order == old(order) + [key]
      ensures !inserted ==> records == old(records) && order == old(order)
    {
      if key in records {
        inserted := false;
      } else {
        records := records[key := record];
        order := order + [key];
        inserted := true;
      }
    }

    /** Point lookup by hash. */
    method Get(key: string) returns (found: Option<V>)
      ensures found.Some? <==> key in records
      ensures found.Some? ==> found.value == records[key]
    {
      found := if key in records then Some(records[key]) else None;
    }

    /** At most `limit` records, the most recently inserted first. */
    method Newest(limit: nat) returns (page: seq<V>)
      requires Valid()
      ensures page == NewestFirst(order, records, limit)
      ensures |page| == Min(limit, |records|)
      ensures forall i :: 0 <= i < |page| ==> page[i] == records[order[|order| - 1 - i]]
    {
      page := NewestFirst(order, records, limit);
      NewestFirstAt(order, records, limit);
      DistinctCount(order, records.Keys);
    }

    /** Every stored record exactly once, in no promised order. */
    method Scan() returns (items: seq<V>)
      requires Valid()
      ensures |items| == |records|
      ensures forall k :: k in records ==> records[k] in items
      ensures forall v :: v in items ==> v in records.Values
    {
      items := Project(order, records);
      DistinctCount(order, records.Keys);
      forall k | k in records
        ensures records[k] in items
      {
        var i :| 0 <= i < |order| && order[i] == k;
        assert items[i] == records[k];
      }
    }
  }
}
