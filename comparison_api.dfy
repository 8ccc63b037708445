// The pure parts of the comparison API: cleaning and padding a build code
// before it is decoded, and the summary of a difference list.

module ComparisonApi {
  import opened ComparisonDifference
  import opened Text
  import opened Seqs

  // ===== Build-code cleaning and padding =====

  /** The characters cleaning removes: space, line feed, carriage return. */
  predicate IsDropped(c: char) {
    c == ' ' || c == '\n' || c == '\r'
  }

  /** The code with spaces, line feeds and carriage returns removed, as the
      three successive replacements compute it. */
  function CleanCode(code: string): (r: string)
    ensures ' ' !in r && '\n' !in r && '\r' !in r
  {
    RemoveChar(RemoveChar(RemoveChar(code, ' '), '\n'), '\r')
  }

  /** Reference definition: the characters of `s` that are not dropped, in order. */
  function Kept(s: string): string {
    if s == [] then [] else (if IsDropped(s[0]) then [] else [s[0]]) + Kept(s[1..])
  }

  /** Cleaning keeps exactly the characters that are not dropped, in order. */
  lemma {:induction false} CleanCodeKeepsTheRest(code: string)
    ensures CleanCode(code) == Kept(code)
  {
    if code != [] {
      var head := [code[0]];
      assert code == head + code[1..];
      RemoveCharAppend(head, code[1..], ' ');
      RemoveCharAppend(RemoveChar(head, ' '), RemoveChar(code[1..], ' '), '\n');
      RemoveCharAppend(RemoveChar(RemoveChar(head, ' '), '\n'), RemoveChar(RemoveChar(code[1..], ' '), '\n'), '\r');
      CleanCodeKeepsTheRest(code[1..]);
    }
  }

  /** A code without dropped characters is left as it is; hence cleaning
      twice is cleaning once. */
  lemma {:induction false} KeptOfClean(s: string)
    requires forall i :: 0 <= i < |s| ==> !IsDropped(s[i])
    ensures Kept(s) == s
  {
    if s != [] {
      KeptOfClean(s[1..]);
    }
  }

  lemma CleanIdempotent(code: string)
    ensures CleanCode(CleanCode(code)) == CleanCode(code)
  {
    var c := CleanCode(code);
    assert forall i :: 0 <= i < |c| ==> !IsDropped(c[i]);
    KeptOfClean(c);
    CleanCodeKeepsTheRest(c);
  }

  function Repeat(c: char, n: nat): (r: string)
    ensures |r| == n && forall i :: 0 <= i < n ==> r[i] == c
  {
    if n == 0 then [] else [c] + Repeat(c, n - 1)
  }

  /** Base64 padding: when the length is not a multiple of four, append
      `4 - len % 4` '=' characters (section 4 of RFC 4648). The result is
      the input followed by at most three '=', and its length is a multiple
      of four. */
  function Pad(s: string): (r: string)
    ensures |r| % 4 == 0
    ensures s <= r && |r| - |s| <= 3
    ensures forall i :: |s| <= i < |r| ==> r[i] == '='
    ensures |s| % 4 == 0 ==> r == s
  {
    var missing := |s| % 4;
    if missing != 0 then s + Repeat('=', 4 - missing) else s
  }

  /** Padding a padded code changes nothing. */
  lemma PadIdempotent(s: string)
    ensures Pad(Pad(s)) == Pad(s)
  {
  }

  /** The code handed to the Base64 decoder. */
  function PreparedCode(code: string): (r: string)
    ensures |r| % 4 == 0 && ' ' !in r && '\n' !in r && '\r' !in r
  {
    Pad(CleanCode(code))
  }

  // ===== Comparison summary =====

  datatype Summary = Summary(
    totalIssues: nat,
    criticalCount: nat,
    highCount: nat,
    mediumCount: nat,
    lowCount: nat,
    categories: map<Category, nat>)

  /** Number of differences with priority `p`. */
  function CountPriority(ds: seq<Difference>, p: Priority): (n: nat)
    ensures n <= |ds|
  {
    if ds == [] then 0 else (if ds[0].priority == p then 1 else 0) + CountPriority(ds[1..], p)
  }

  /** Number of differences in category `c`. */
  function CountCategory(ds: seq<Difference>, c: Category): (n: nat)
    ensures n <= |ds|
  {
    if ds == [] then 0 else CountCategory(ds[..|ds| - 1], c) + (if ds[|ds| - 1].category == c then 1 else 0)
  }

  /** The four tier counts add up to the number of differences. */
  lemma {:induction false} PriorityCountsCoverAll(ds: seq<Difference>)
    ensures CountPriority(ds, Critical) + CountPriority(ds, High) + CountPriority(ds, Medium) + CountPriority(ds, Low) == |ds|
  {
    if ds != [] {
      PriorityCountsCoverAll(ds[1..]);
    }
  }

  /** The category dictionary after the first `|ds|` differences, built by
      creating a zero entry for a new category and incrementing it. */
  function CategoryCounts(ds: seq<Difference>): map<Category, nat> {
    if ds == [] then map[]
    else
      var m := CategoryCounts(ds[..|ds| - 1]);
      var c := ds[|ds| - 1].category;
      m[c := (if c in m then m[c] else 0) + 1]
  }

  /** The categories in order of first occurrence: the dictionary's keys. */
  function FirstSeen(ds: seq<Difference>): seq<Category> {
    if ds == [] then []
    else
      var keys := FirstSeen(ds[..|ds| - 1]);
      var c := ds[|ds| - 1].category;
      if c in keys then keys else keys + [c]
  }

  /** The dictionary holds exactly the categories that occur, each with its
      number of occurrences, and its keys are listed once each by FirstSeen. */
  lemma {:induction false} CategoryCountsExact(ds: seq<Difference>)
    ensures forall c :: c in CategoryCounts(ds) <==> c in FirstSeen(ds)
    ensures forall c :: c in CategoryCounts(ds) ==> CategoryCounts(ds)[c] == CountCategory(ds, c) > 0
    ensures forall c :: c !in CategoryCounts(ds) ==> CountCategory(ds, c) == 0
    ensures forall i, j :: 0 <= i < j < |FirstSeen(ds)| ==> FirstSeen(ds)[i] != FirstSeen(ds)[j]
  {
    if ds != [] {
      CategoryCountsExact(ds[..|ds| - 1]);
    }
  }

  /** A category occurs exactly when it is a key. */
  lemma CategoryKeysOccur(ds: seq<Difference>, c: Category)
    ensures c in CategoryCounts(ds) <==> exists i :: 0 <= i < |ds| && ds[i].category == c
  {
    CategoryCountsExact(ds);
    CountCategoryPositive(ds, c);
  }

  lemma {:induction false} CountCategoryPositive(ds: seq<Difference>, c: Category)
    ensures CountCategory(ds, c) > 0 <==> exists i :: 0 <= i < |ds| && ds[i].category == c
  {
    if ds != [] {
      var prefix := ds[..|ds| - 1];
      CountCategoryPositive(prefix, c);
      if exists i :: 0 <= i < |prefix| && prefix[i].category == c {
        var i :| 0 <= i < |prefix| && prefix[i].category == c;
        assert ds[i] == prefix[i];
      }
      if exists i :: 0 <= i < |ds| && ds[i].category == c {
        var i :| 0 <= i < |ds| && ds[i].category == c;
        if i < |prefix| {
          assert prefix[i] == ds[i];
        }
      }
    }
  }

  /** Sum of the counts stored under `keys`. */
  function SumOver(keys: seq<Category>, m: map<Category, nat>): nat {
    if keys == [] then 0
    else SumOver(keys[..|keys| - 1], m) + (if keys[|keys| - 1] in m then m[keys[|keys| - 1]] else 0)
  }

  lemma {:induction false} SumOverUnchanged(keys: seq<Category>, m: map<Category, nat>, c: Category, v: nat)
    requires c !in keys
    ensures SumOver(keys, m[c := v]) == SumOver(keys, m)
  {
    if keys != [] {
      SumOverUnchanged(keys[..|keys| - 1], m, c, v);
    }
  }

  lemma {:induction false} SumOverIncrement(keys: seq<Category>, m: map<Category, nat>, c: Category)
    requires c in m
    requires forall i, j :: 0 <= i < j < |keys| ==> keys[i] != keys[j]
    requires c in keys
    ensures SumOver(keys, m[c := m[c] + 1]) == SumOver(keys, m) + 1
  {
    var prefix := keys[..|keys| - 1];
    if keys[|keys| - 1] == c {
      assert c !in prefix by {
        forall i | 0 <= i < |prefix| ensures prefix[i] != c {
          assert prefix[i] == keys[i];
        }
      }
      SumOverUnchanged(prefix, m, c, m[c] + 1);
    } else {
      assert c in prefix by {
        var k :| 0 <= k < |keys| && keys[k] == c;
        assert prefix[k] == c;
      }
      SumOverIncrement(prefix, m, c);
    }
  }

  /** The category counts add up to the number of differences. */
  lemma {:induction false} CategoryCountsSumToTotal(ds: seq<Difference>)
    ensures SumOver(FirstSeen(ds), CategoryCounts(ds)) == |ds|
  {
    if ds != [] {
      var prefix := ds[..|ds| - 1];
      var m := CategoryCounts(prefix);
      var keys := FirstSeen(prefix);
      var c := ds[|ds| - 1].category;
      CategoryCountsSumToTotal(prefix);
      CategoryCountsExact(prefix);
      if c in keys {
        SumOverIncrement(keys, m, c);
      } else {
        SumOverUnchanged(keys, m, c, 1);
      }
    }
  }

  lemma CategoryStep(ds: seq<Difference>, i: nat)
    requires i < |ds|
    ensures var m := CategoryCounts(ds[..i]);
            var c := ds[i].category;
            CategoryCounts(ds[..i + 1]) == m[c := (if c in m then m[c] else 0) + 1]
  {
    PrefixStep(ds, i);
  }

  /** The summary: the total, the four tier counts and the category
      dictionary, filled in one pass over the differences. */
  method GenerateComparisonSummary(ds: seq<Difference>) returns (s: Summary)
    ensures s.totalIssues == |ds|
    ensures s.criticalCount == CountPriority(ds, Critical) && s.highCount == CountPriority(ds, High)
    ensures s.mediumCount == CountPriority(ds, Medium) && s.lowCount == CountPriority(ds, Low)
    ensures s.categories == CategoryCounts(ds)
  {
    var categories: map<Category, nat> := map[];
    var i := 0;
    while i < |ds|
      invariant 0 <= i <= |ds|
      invariant categories == CategoryCounts(ds[..i])
    {
      CategoryStep(ds, i);
      var c := ds[i].category;
      if c !in categories {
        categories := categories[c := 0];
      }
      categories := categories[c := categories[c] + 1];
      i := i + 1;
    }
    WholePrefix(ds);
    s := Summary(|ds|, CountPriority(ds, Critical), CountPriority(ds, High),
                 CountPriority(ds, Medium), CountPriority(ds, Low), categories);
  }
}
