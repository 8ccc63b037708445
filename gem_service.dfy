/** The gem reference service: it loads the gem reference table once, keeps
    the set of lower-cased support-gem names (with and without the trailing
    " support") and a map from lower-cased display names to table keys, and
    answers support and lookup queries from them. */
module GemService {
  import opened Wrappers
  import opened Text

  /** One gem of the reference table: its display name, whether it is a
      support gem, and the rest of its record. */
  datatype GemRecord = GemRecord(displayName: string, isSupport: bool, details: map<string, string>)

  /** A table entry: the gem's key and its record, in file order. */
  datatype GemEntry = GemEntry(key: string, gem: GemRecord)

  const SupportSuffix: string := " support"

  predicate DistinctKeys(entries: seq<GemEntry>) {
    forall i, j :: 0 <= i < j < |entries| ==> entries[i].key != entries[j].key
  }

  /** The table as a dictionary from key to record. */
  function TableOf(entries: seq<GemEntry>): (m: map<string, GemRecord>)
    ensures forall i :: 0 <= i < |entries| ==> entries[i].key in m
    ensures forall k :: k in m ==> exists i :: 0 <= i < |entries| && entries[i].key == k
  {
    if entries == [] then map[]
    else
      var last := entries[|entries| - 1];
      var prefix := entries[..|entries| - 1];
      var m := TableOf(prefix);
      assert forall i :: 0 <= i < |prefix| ==> prefix[i] == entries[i];
      m[last.key := last.gem]
  }

  /** The two lookup tables the service derives from the reference table. */
  datatype Index = Index(supportNames: set<string>, nameToKey: map<string, string>)

  /** The name without the trailing " support", for names that have one. */
  function WithoutSupportSuffix(lower: string): string
    requires EndsWith(lower, SupportSuffix)
  {
    lower[..|lower| - |SupportSuffix|]
  }

  /** What one table entry adds to the index: nothing when the display name is
      empty; otherwise its lower-cased name is mapped to its key, and for a
      support gem that name (and its suffix-free variant, also mapped to the
      key) joins the support set. */
  function AddEntry(ix: Index, e: GemEntry): Index {
    if e.gem.displayName == [] then ix
    else
      var lower := Lower(e.gem.displayName);
      var names := ix.nameToKey[lower := e.key];
      if !e.gem.isSupport then Index(ix.supportNames, names)
      else if EndsWith(lower, SupportSuffix) then
        var short := WithoutSupportSuffix(lower);
        Index(ix.supportNames + {lower, short}, names[short := e.key])
      else Index(ix.supportNames + {lower}, names)
  }

  /** The index after the entries have been visited in order. */
  function BuildIndex(entries: seq<GemEntry>): Index {
    if entries == [] then Index({}, map[])
    else AddEntry(BuildIndex(entries[..|entries| - 1]), entries[|entries| - 1])
  }

  /** A name is in the support set because of a given entry. */
  predicate SupportNameOf(e: GemEntry, n: string) {
    e.gem.displayName != [] && e.gem.isSupport
    && (n == Lower(e.gem.displayName)
        || (EndsWith(Lower(e.gem.displayName), SupportSuffix) && n == WithoutSupportSuffix(Lower(e.gem.displayName))))
  }

  /** A name is mapped to an entry's key because of that entry. */
  predicate LookupNameOf(e: GemEntry, n: string) {
    e.gem.displayName != []
    && (n == Lower(e.gem.displayName)
        || (e.gem.isSupport && EndsWith(Lower(e.gem.displayName), SupportSuffix)
            && n == WithoutSupportSuffix(Lower(e.gem.displayName))))
  }

  /** The support set holds exactly the names some support entry with a
      display name contributes: the lower-cased name, and the variant without
      " support" when the name ends with it. Entries with an empty display
      name contribute nothing. */
  lemma {:induction false} SupportNamesExact(entries: seq<GemEntry>, n: string)
    ensures n in BuildIndex(entries).supportNames <==> exists i :: 0 <= i < |entries| && SupportNameOf(entries[i], n)
  {
    if entries != [] {
      var prefix := entries[..|entries| - 1];
      SupportNamesExact(prefix, n);
      assert forall i :: 0 <= i < |prefix| ==> prefix[i] == entries[i];
      if n in BuildIndex(entries).supportNames && n !in BuildIndex(prefix).supportNames {
        assert SupportNameOf(entries[|entries| - 1], n);
      }
      if exists i :: 0 <= i < |entries| && SupportNameOf(entries[i], n) {
        var i :| 0 <= i < |entries| && SupportNameOf(entries[i], n);
        if i < |prefix| {
          assert SupportNameOf(prefix[i], n);
        }
      }
    }
  }

  /** One entry changes the lookup map only at the names it contributes. */
  lemma AddEntryLookup(ix: Index, e: GemEntry, n: string)
    ensures (n in AddEntry(ix, e).nameToKey) == (LookupNameOf(e, n) || n in ix.nameToKey)
    ensures LookupNameOf(e, n) ==> AddEntry(ix, e).nameToKey[n] == e.key
    ensures !LookupNameOf(e, n) && n in ix.nameToKey ==> AddEntry(ix, e).nameToKey[n] == ix.nameToKey[n]
  {
  }

  /** Position of the last entry that contributes the name, or -1. */
  function LastContributor(entries: seq<GemEntry>, n: string): (r: int)
    ensures -1 <= r < |entries|
    ensures r >= 0 ==> LookupNameOf(entries[r], n)
    ensures forall j :: r < j < |entries| ==> !LookupNameOf(entries[j], n)
  {
    if entries == [] then -1
    else if LookupNameOf(entries[|entries| - 1], n) then |entries| - 1
    else
      var prefix := entries[..|entries| - 1];
      assert forall j :: 0 <= j < |prefix| ==> prefix[j] == entries[j];
      LastContributor(prefix, n)
  }

  /** Every name in the lookup map leads to the key of the LAST entry that
      contributes that name; names no entry contributes are not in the map. */
  lemma {:induction false} LookupLastWriterWins(entries: seq<GemEntry>, n: string)
    ensures n in BuildIndex(entries).nameToKey <==> LastContributor(entries, n) >= 0
    ensures n in BuildIndex(entries).nameToKey ==>
              BuildIndex(entries).nameToKey[n] == entries[LastContributor(entries, n)].key
  {
    if entries != [] {
      var prefix := entries[..|entries| - 1];
      var last := entries[|entries| - 1];
      LookupLastWriterWins(prefix, n);
      AddEntryLookup(BuildIndex(prefix), last, n);
      if !LookupNameOf(last, n) {
        var r := LastContributor(prefix, n);
        assert r >= 0 ==> prefix[r] == entries[r];
      }
    }
  }

  /** The loop that visits the table entries in order and fills the support
      set and the name map. */
  method IndexEntries(table: seq<GemEntry>) returns (supportNames: set<string>, nameToKey: map<string, string>)
    ensures supportNames == BuildIndex(table).supportNames
    ensures nameToKey == BuildIndex(table).nameToKey
  {
    supportNames, nameToKey := {}, map[];
    var i := 0;
    while i < |table|
      invariant 0 <= i <= |table|
      invariant supportNames == BuildIndex(table[..i]).supportNames
      invariant nameToKey == BuildIndex(table[..i]).nameToKey
    {
      var e := table[i];
      assert table[..i + 1][..i] == table[..i];
      if e.gem.displayName != [] {
        var lower := Lower(e.gem.displayName);
        nameToKey := nameToKey[lower := e.key];
        if e.gem.isSupport {
          supportNames := supportNames + {lower};
          if EndsWith(lower, SupportSuffix) {
            var short := lower[..|lower| - 8];
            supportNames := supportNames + {short};
            nameToKey := nameToKey[short := e.key];
          }
        }
      }
      i := i + 1;
    }
    assert table[..|table|] == table;
  }

  class GemService {
    var gemsData: map<string, GemRecord>
    var supportGemNames: set<string>
    var displayNameToKey: map<string, string>
    var loaded: bool
    /** The reference table that was loaded, in file order. */
    ghost var entries: seq<GemEntry>

    /** Before loading every table is empty; after loading they are the
        reference table and the index built from it. */
    ghost predicate Valid()
      reads this
    {
      DistinctKeys(entries)
      && (if loaded then
            gemsData == TableOf(entries)
            && supportGemNames == BuildIndex(entries).supportNames
            && displayNameToKey == BuildIndex(entries).nameToKey
          else
            entries == [] && gemsData == map[] && supportGemNames == {} && displayNameToKey == map[])
    }

    constructor()
      ensures Valid() && !loaded && entries == []
    {
      gemsData := map[];
      supportGemNames := {};
      displayNameToKey := map[];
      loaded := false;
      entries := [];
    }

    /** Loading the reference table, given as the parsed file (`None` when the
        file does not exist). A second load is a no-op that reports success; a
        missing file reports failure and leaves the tables empty. */
    method LoadGemData(file: Option<seq<GemEntry>>) returns (ok: bool)
      requires Valid()
      requires file.Some? ==> DistinctKeys(file.value)
      modifies this
      ensures Valid()
      ensures old(loaded) ==> ok && unchanged(this)
      ensures !old(loaded) && file.None? ==> !ok && unchanged(this)
      ensures !old(loaded) && file.Some? ==> ok && loaded && entries == file.value
    {
      if loaded {
        return true;
      }
      if file.None? {
        return false;
      }
      var table := file.value;
      gemsData := TableOf(table);
      supportGemNames, displayNameToKey := IndexEntries(table);
      entries := table;
      loaded := true;
      return true;
    }

    /** Case-insensitive membership in the support set. */
    predicate IsSupportGem(name: string)
      reads this
    {
      Lower(name) in supportGemNames
    }

    /** The record whose display name (or suffix-free support name) matches,
        ignoring case; `None` for an unknown name. */
    function GetGemInfo(name: string): (r: Option<GemRecord>)
      reads this
      requires Valid()
      ensures r.Some? ==> Lower(name) in displayNameToKey && displayNameToKey[Lower(name)] in gemsData
                          && r.value == gemsData[displayNameToKey[Lower(name)]]
      ensures Lower(name) !in displayNameToKey ==> r.None?
      ensures r.Some? <==> Lower(name) in displayNameToKey && displayNameToKey[Lower(name)] != []
                           && displayNameToKey[Lower(name)] in gemsData
    {
      var lower := Lower(name);
      if lower in displayNameToKey && displayNameToKey[lower] != [] && displayNameToKey[lower] in gemsData
      then Some(gemsData[displayNameToKey[lower]])
      else None
    }

    /** Number of support-name variants (not of support gems). */
    function SupportGemCount(): nat
      reads this
    {
      |supportGemNames|
    }

    function TotalGemCount(): nat
      reads this
    {
      |gemsData|
    }
  }

  /** Looking a gem up finds a record whose own display name, lower-cased
      (or with " support" dropped), is the lower-cased query. */
  lemma GetGemInfoFindsNamedGem(svc: GemService, name: string)
    requires svc.Valid()
    requires svc.GetGemInfo(name).Some?
    ensures exists i :: 0 <= i < |svc.entries| && LookupNameOf(svc.entries[i], Lower(name))
                        && svc.GetGemInfo(name).value == svc.entries[i].gem
  {
    var es := svc.entries;
    var n := Lower(name);
    assert svc.loaded;
    LookupLastWriterWins(es, n);
    var i := LastContributor(es, n);
    TableLookup(es, i);
  }

  /** In a table with distinct keys, each entry's key finds that entry. */
  lemma {:induction false} TableLookup(entries: seq<GemEntry>, i: nat)
    requires DistinctKeys(entries)
    requires i < |entries|
    ensures TableOf(entries)[entries[i].key] == entries[i].gem
  {
    var prefix := entries[..|entries| - 1];
    if i < |entries| - 1 {
      assert DistinctKeys(prefix);
      assert prefix[i] == entries[i];
      TableLookup(prefix, i);
    }
  }

  /** Support queries ignore case. */
  lemma IsSupportGemIgnoresCase(svc: GemService, name: string)
    ensures svc.IsSupportGem(name) == svc.IsSupportGem(Lower(name))
  {
    LowerIdempotent(name);
  }

  /** The support count counts name variants: a table holding a single
      support gem whose name ends in " support" yields a count of two. */
  lemma SupportCountExceedsSupportGems(e: GemEntry)
    requires e.gem.displayName != [] && e.gem.isSupport
    requires EndsWith(Lower(e.gem.displayName), SupportSuffix)
    ensures |BuildIndex([e]).supportNames| == 2
  {
    assert [e][..0] == [];
    var lower := Lower(e.gem.displayName);
    assert BuildIndex([e]).supportNames == {lower, WithoutSupportSuffix(lower)};
    assert |WithoutSupportSuffix(lower)| < |lower|;
  }
}
