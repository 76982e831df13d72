/** normalizeStringList of runtime_helpers.go: trim, drop blanks and repeats, sort. */
module Normalize {
  import opened Text
  import opened Sorting

  lemma StringOrder()
    ensures TotalOrder(StringLe)
  {
    forall a, b ensures StringLe(a, b) || StringLe(b, a) { StringLeTotal(a, b); }
    forall a, b | StringLe(a, b) && StringLe(b, a) ensures a == b { StringLeTotal(a, b); }
    forall a, b, c | StringLe(a, b) && StringLe(b, c) ensures StringLe(a, c) { StringLeTransitive(a, b, c); }
  }

  /** The trimmed, non-blank members of values. */
  ghost function Members(values: seq<string>): set<string> {
    set v | v in values && TrimSpace(v) != "" :: TrimSpace(v)
  }

  /** The first occurrences, in order, of the trimmed non-blank values not yet seen. */
  function Fresh(values: seq<string>, seen: set<string>): seq<string> {
    if values == [] then [] else
    var v := TrimSpace(values[0]);
    if v == "" || v in seen then Fresh(values[1..], seen) else [v] + Fresh(values[1..], seen + {v})
  }

  lemma FreshMembers(values: seq<string>, seen: set<string>)
    ensures Distinct(Fresh(values, seen))
    ensures forall x :: x in Fresh(values, seen) <==> x in Members(values) && x !in seen
  {
    if values != [] {
      var v := TrimSpace(values[0]);
      var rest := values[1..];
      assert values == [values[0]] + rest;
      assert Members(values) == Members(rest) + (if v == "" then {} else {v});
      if v == "" || v in seen { FreshMembers(rest, seen); } else { FreshMembers(rest, seen + {v}); }
    }
  }

  function NormalizeList(values: seq<string>): seq<string> {
    Sort(StringLe, Fresh(values, {}))
  }

  /** Sorted, duplicate-free, and holding exactly the trimmed non-blank values. */
  lemma NormalizeListSpec(values: seq<string>)
    ensures Sorted(StringLe, NormalizeList(values)) && Distinct(NormalizeList(values))
    ensures forall x :: x in NormalizeList(values) <==> x in Members(values)
  {
    StringOrder();
    FreshMembers(values, {});
    SortCorrect(StringLe, Fresh(values, {}));
    SortDistinct(StringLe, Fresh(values, {}));
    forall x ensures x in NormalizeList(values) <==> x in Members(values) {
      SortMembers(StringLe, Fresh(values, {}), x);
    }
  }

  /** Neither order nor repetition of the input can be seen in the output. */
  lemma NormalizeListByMembers(a: seq<string>, b: seq<string>)
    requires Members(a) == Members(b)
    ensures NormalizeList(a) == NormalizeList(b)
  {
    StringOrder();
    NormalizeListSpec(a);
    NormalizeListSpec(b);
    SortedByMembers(StringLe, NormalizeList(a), NormalizeList(b));
  }

  lemma NormalizeListIdempotent(values: seq<string>)
    ensures NormalizeList(NormalizeList(values)) == NormalizeList(values)
  {
    var once := NormalizeList(values);
    NormalizeListSpec(values);
    assert Members(once) == Members(values) by {
      forall x | x in once ensures TrimSpace(x) == x && x != "" {
        var v :| v in values && x == TrimSpace(v) && x != "";
        TrimSpaceIdempotent(v);
      }
    }
    NormalizeListByMembers(once, values);
  }

  /** The loop of normalizeStringList. */
  method NormalizeStringList(values: seq<string>) returns (out: seq<string>)
    ensures out == NormalizeList(values)
    ensures Sorted(StringLe, out) && Distinct(out)
    ensures forall x :: x in out <==> x in Members(values)
  {
    var seen: set<string> := {};
    out := [];
    for i := 0 to |values|
      invariant Fresh(values, {}) == out + Fresh(values[i..], seen)
    {
      assert values[i..][1..] == values[i + 1..];
      var value := TrimSpace(values[i]);
      if value == "" || value in seen {
        continue;
      }
      seen := seen + {value};
      out := out + [value];
    }
    assert Fresh(values, {}) == out;
    out := Sort(StringLe, out);
    NormalizeListSpec(values);
  }
}
