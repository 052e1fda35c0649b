/** Generic facts about the constant tables the field enums are built from:
    a table is a sequence of constants in declaration order together with a
    function giving each constant's key (its name or its JSON attribute). */
module Tables {
  import opened Wrappers

  /** The keys carried by the entries of `fields`. */
  function KeySet<F>(fields: seq<F>, key: F -> string): set<string>
  {
    set i | 0 <= i < |fields| :: key(fields[i])
  }

  /** No two entries of `fields` carry the same key. */
  predicate DistinctKeys<F>(fields: seq<F>, key: F -> string)
  {
    forall i, j | 0 <= i < j < |fields| :: key(fields[i]) != key(fields[j])
  }

  /** No value occurs twice in `s`. */
  predicate Distinct<T(==)>(s: seq<T>)
  {
    forall i, j | 0 <= i < j < |s| :: s[i] != s[j]
  }

  /** Entry `i` is the last entry of `fields` with its key: the one a
      last-write-wins fold keeps. */
  predicate LastWithKey<F>(fields: seq<F>, key: F -> string, i: int)
    requires 0 <= i < |fields|
  {
    forall j | i < j < |fields| :: key(fields[j]) != key(fields[i])
  }

  /** `m` is what a last-write-wins fold of `fields` produces: it has exactly
      the table's keys, every entry sits under its own key, and an entry that
      no later entry shadows is the one found under its key. */
  ghost predicate IsReverseIndex<F>(fields: seq<F>, key: F -> string, m: map<string, F>)
  {
    && m.Keys == KeySet(fields, key)
    && (forall k | k in m :: key(m[k]) == k)
    && (forall i | 0 <= i < |fields| && LastWithKey(fields, key, i) ::
          key(fields[i]) in m && m[key(fields[i])] == fields[i])
  }

  /** The static reverse map of a field enum: a fold over `fields` in
      declaration order that puts every entry under its key, a later entry
      replacing an earlier one with the same key (HashMap.put). */
  function Build<F>(fields: seq<F>, key: F -> string): (m: map<string, F>)
    ensures IsReverseIndex(fields, key, m)
    decreases |fields|
  {
    if |fields| == 0 then map[]
    else
      var m := Build(fields[..|fields| - 1], key);
      BuildStep(fields, key, m);
      m[key(fields[|fields| - 1]) := fields[|fields| - 1]]
  }

  /** Putting the last entry into a reverse index of the other entries gives
      a reverse index of the whole table. */
  lemma BuildStep<F>(fields: seq<F>, key: F -> string, m: map<string, F>)
    requires |fields| > 0
    requires IsReverseIndex(fields[..|fields| - 1], key, m)
    ensures IsReverseIndex(fields, key, m[key(fields[|fields| - 1]) := fields[|fields| - 1]])
  {
    var last := fields[|fields| - 1];
    var m' := m[key(last) := last];
    KeySetSnoc(fields, key);
    LastWithKeyOfInit(fields, key);
    forall i | 0 <= i < |fields| && LastWithKey(fields, key, i)
      ensures key(fields[i]) in m' && m'[key(fields[i])] == fields[i]
    {
      if i < |fields| - 1 {
        assert fields[..|fields| - 1][i] == fields[i];
      }
    }
  }

  /** What HashMap.get answers for the key `k`: the constant filed under it,
      or None where Java returns null. */
  function HashMapGet<F>(m: map<string, F>, k: string): Option<F>
  {
    if k !in m then None else Some(m[k])
  }

  /** Position of the first entry of `fields` whose key is `k`, scanning in
      declaration order. The enums never search like this; it is the
      independent reference that the maps they consult are checked against. */
  function FirstWith<F>(fields: seq<F>, key: F -> string, k: string): (r: Option<nat>)
    ensures r.Some? ==> r.value < |fields| && key(fields[r.value]) == k
    ensures r.Some? ==> forall j | 0 <= j < r.value :: key(fields[j]) != k
    ensures r.None? <==> k !in KeySet(fields, key)
    decreases |fields|
  {
    if |fields| == 0 then None
    else if key(fields[0]) == k then Some(0)
    else
      match FirstWith(fields[1..], key, k)
      case None => None
      case Some(i) => Some(i + 1)
  }

  /** The key of every entry of `fields`, in order: the loop that fills a
      category's list of JSON field names. */
  function KeysInOrder<F>(fields: seq<F>, key: F -> string): (names: seq<string>)
    ensures |names| == |fields|
    ensures forall i | 0 <= i < |fields| :: names[i] == key(fields[i])
    decreases |fields|
  {
    if |fields| == 0 then []
    else KeysInOrder(fields[..|fields| - 1], key) + [key(fields[|fields| - 1])]
  }

  /** The key set of a table is that of all but its last entry, plus the
      last entry's key. */
  lemma KeySetSnoc<F>(fields: seq<F>, key: F -> string)
    requires |fields| > 0
    ensures KeySet(fields, key) ==
              KeySet(fields[..|fields| - 1], key) + {key(fields[|fields| - 1])}
  {
    var init := fields[..|fields| - 1];
    forall k | k in KeySet(fields, key)
      ensures k in KeySet(init, key) + {key(fields[|fields| - 1])}
    {
      var i :| 0 <= i < |fields| && key(fields[i]) == k;
      if i < |init| {
        assert init[i] == fields[i];
      }
    }
    forall k | k in KeySet(init, key)
      ensures k in KeySet(fields, key)
    {
      var i :| 0 <= i < |init| && key(init[i]) == k;
      assert fields[i] == init[i];
    }
  }

  /** An entry before the last that no later entry shadows is also unshadowed
      within the prefix, and its key differs from the last entry's. */
  lemma LastWithKeyOfInit<F>(fields: seq<F>, key: F -> string)
    requires |fields| > 0
    ensures forall i | 0 <= i < |fields| - 1 && LastWithKey(fields, key, i) ::
              && fields[..|fields| - 1][i] == fields[i]
              && LastWithKey(fields[..|fields| - 1], key, i)
              && key(fields[i]) != key(fields[|fields| - 1])
  {
    var init := fields[..|fields| - 1];
    forall i | 0 <= i < |init| && LastWithKey(fields, key, i)
      ensures LastWithKey(init, key, i)
    {
      forall j | i < j < |init|
        ensures key(init[j]) != key(init[i])
      {
        assert init[j] == fields[j] && init[i] == fields[i];
      }
    }
  }

  /** Distinct keys make the key set as large as the table. */
  lemma {:induction false} KeySetSize<F>(fields: seq<F>, key: F -> string)
    requires DistinctKeys(fields, key)
    ensures |KeySet(fields, key)| == |fields|
    decreases |fields|
  {
    if |fields| > 0 {
      var init := fields[..|fields| - 1];
      var last := fields[|fields| - 1];
      assert DistinctKeys(init, key) by {
        forall i, j | 0 <= i < j < |init|
          ensures key(init[i]) != key(init[j])
        {
          assert init[i] == fields[i] && init[j] == fields[j];
        }
      }
      KeySetSize(init, key);
      KeySetSnoc(fields, key);
      forall i | 0 <= i < |init|
        ensures key(init[i]) != key(last)
      {
        assert init[i] == fields[i];
      }
      assert key(last) !in KeySet(init, key);
    }
  }

  /** With distinct keys the fold overwrites nothing: the reverse map holds
      one entry per constant, and each constant is found under its own key. */
  lemma BuildDistinct<F>(fields: seq<F>, key: F -> string)
    requires DistinctKeys(fields, key)
    ensures |Build(fields, key)| == |fields|
    ensures forall i | 0 <= i < |fields| ::
              key(fields[i]) in Build(fields, key) && Build(fields, key)[key(fields[i])] == fields[i]
  {
    var m := Build(fields, key);
    KeySetSize(fields, key);
    assert |m| == |m.Keys|;
    forall i | 0 <= i < |fields|
      ensures LastWithKey(fields, key, i)
    {
    }
  }

  /** With distinct keys, looking a key up in the reverse map agrees with
      scanning the table for the first entry carrying that key. */
  lemma BuildAgreesWithSearch<F>(fields: seq<F>, key: F -> string, k: string)
    requires DistinctKeys(fields, key)
    ensures HashMapGet(Build(fields, key), k) ==
              match FirstWith(fields, key, k)
              case Some(i) => Some(fields[i])
              case None => None
  {
    BuildDistinct(fields, key);
  }
}
