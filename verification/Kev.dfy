/** The catalog of known exploited vulnerabilities: parsing the feed into a dictionary that keeps the order
    of first insertion, the shrunk form that is cached, and the lookup. Letters are those of ASCII. */
module Kev {
  import opened Wrappers

  /** A listed vulnerability: the fields that are present. */
  type Item = map<string, string>

  datatype Payload = Payload(version: Option<string>, released: Option<string>, vulnerabilities: Option<seq<Item>>)

  datatype Entry = Entry(cveId: string, vendorProject: string, product: string, vulnerabilityName: string,
                         dateAdded: string, dueDate: string, knownRansomwareUse: bool, requiredAction: string)

  /** `order` are the keys in the order in which a dictionary enumerates them. */
  datatype Dictionary = Dictionary(order: seq<string>, entries: map<string, Entry>)

  datatype Catalog = Catalog(version: string, released: string, dictionary: Dictionary)

  // ---- letters ----

  function UpperChar(c: char): char {
    if 'a' <= c <= 'z' then c - 'a' + 'A' else c
  }

  function LowerChar(c: char): char {
    if 'A' <= c <= 'Z' then c - 'A' + 'a' else c
  }

  function Upper(s: string): (r: string)
    ensures |r| == |s|
  {
    seq(|s|, k requires 0 <= k < |s| => UpperChar(s[k]))
  }

  function Lower(s: string): (r: string)
    ensures |r| == |s|
  {
    seq(|s|, k requires 0 <= k < |s| => LowerChar(s[k]))
  }

  lemma UpperTwice(s: string)
    ensures Upper(Upper(s)) == Upper(s)
  {
    assert forall k | 0 <= k < |s| :: UpperChar(UpperChar(s[k])) == UpperChar(s[k]);
  }

  const SMALL := "abcdefghijklmnopqrstuvwxyz"
  const LARGE := "ABCDEFGHIJKLMNOPQRSTUVWXYZ"

  /** Every small letter becomes its large one, and every other character stays. */
  lemma LettersOfUpper(k: nat, c: char)
    requires k < 26
    ensures UpperChar(SMALL[k]) == LARGE[k]
    ensures c !in SMALL ==> UpperChar(c) == c
  {
    if 'a' <= c <= 'z' {
      assert SMALL[(c - 'a') as int] == c;
    }
  }

  lemma LettersOfLower(k: nat, c: char)
    requires k < 26
    ensures LowerChar(LARGE[k]) == SMALL[k]
    ensures c !in LARGE ==> LowerChar(c) == c
  {
    if 'A' <= c <= 'Z' {
      assert LARGE[(c - 'A') as int] == c;
    }
  }

  /** Equal, or the two forms of one letter. */
  predicate SameLetter(a: char, b: char) {
    || a == b
    || exists k :: 0 <= k < 26 && ((a == SMALL[k] && b == LARGE[k]) || (a == LARGE[k] && b == SMALL[k]))
  }

  lemma SameLetterSameUpper(a: char, b: char)
    requires SameLetter(a, b)
    ensures UpperChar(a) == UpperChar(b)
  {
    if k: nat :| k < 26 && ((a == SMALL[k] && b == LARGE[k]) || (a == LARGE[k] && b == SMALL[k])) {
      LettersOfUpper(k, LARGE[k]);
      LargeIsNotSmall(k);
    }
  }

  lemma LargeIsNotSmall(k: nat)
    requires k < 26
    ensures LARGE[k] !in SMALL
  {
  }

  // ---- parsing ----

  function Text(item: Item, field: string): string {
    if field in item then item[field] else ""
  }

  function IdOf(item: Item): string {
    Upper(Text(item, "cveID"))
  }

  function EntryOf(item: Item): Entry {
    Entry(IdOf(item), Text(item, "vendorProject"), Text(item, "product"), Text(item, "vulnerabilityName"),
          Text(item, "dateAdded"), Text(item, "dueDate"),
          Lower(Text(item, "knownRansomwareCampaignUse")) == "known", Text(item, "requiredAction"))
  }

  /** Assigning to a key: a new key goes last, a known one keeps its place. */
  function Assign(d: Dictionary, key: string, entry: Entry): Dictionary {
    Dictionary(if key in d.entries then d.order else d.order + [key], d.entries[key := entry])
  }

  function Add(d: Dictionary, item: Item): Dictionary {
    if IdOf(item) == "" then d else Assign(d, IdOf(item), EntryOf(item))
  }

  function Collected(items: seq<Item>): Dictionary {
    if items == [] then Dictionary([], map[]) else Add(Collected(items[..|items| - 1]), items[|items| - 1])
  }

  function Or<T>(value: Option<T>, otherwise: T): T {
    if value.Some? then value.value else otherwise
  }

  function Parsed(p: Payload): Catalog {
    Catalog(Or(p.version, "unknown"), Or(p.released, ""), Collected(Or(p.vulnerabilities, [])))
  }

  method ParseCatalog(p: Payload) returns (catalog: Catalog)
    ensures catalog == Parsed(p)
  {
    var items := Or(p.vulnerabilities, []);
    var order: seq<string>, entries: map<string, Entry> := [], map[];
    for k := 0 to |items|
      invariant Dictionary(order, entries) == Collected(items[..k])
    {
      assert items[..k + 1][..k] == items[..k];
      var item := items[k];
      var cveId := Upper(Text(item, "cveID"));
      if cveId == "" {
        continue;
      }
      if cveId !in entries {
        order := order + [cveId];
      }
      entries := entries[cveId := EntryOf(item)];
    }
    assert items[..|items|] == items;
    catalog := Catalog(Or(p.version, "unknown"), Or(p.released, ""), Dictionary(order, entries));
  }

  // ---- the lookup ----

  function Get(catalog: Catalog, cveId: string): Option<Entry> {
    var key := Upper(cveId);
    if key in catalog.dictionary.entries then Some(catalog.dictionary.entries[key]) else None
  }

  predicate IsLastOf(items: seq<Item>, key: string, k: nat) {
    k < |items| && IdOf(items[k]) == key && forall m | k < m < |items| :: IdOf(items[m]) != key
  }

  lemma {:induction false} LastListedWins(items: seq<Item>, key: string, k: nat)
    requires key != "" && IsLastOf(items, key, k)
    ensures key in Collected(items).entries && Collected(items).entries[key] == EntryOf(items[k])
  {
    var last := |items| - 1;
    if k < last {
      assert IdOf(items[last]) != key;
      assert items[..last][k] == items[k];
      LastListedWins(items[..last], key, k);
    }
  }

  lemma {:induction false} OnlyListedKeys(items: seq<Item>, key: string)
    requires key in Collected(items).entries
    ensures key != "" && exists k :: IsLastOf(items, key, k)
  {
    var last := |items| - 1;
    if IdOf(items[last]) == key && key != "" {
      assert IsLastOf(items, key, last);
    } else {
      OnlyListedKeys(items[..last], key);
      var k: nat :| IsLastOf(items[..last], key, k);
      assert IsLastOf(items, key, k);
    }
  }

  /** The lookup finds, regardless of the case it is asked in, the last listed entry with that id, and nothing
      exactly if there is none or the id is empty. A field the feed lacks has its default. */
  lemma GetReturnsTheLastListed(p: Payload, items: seq<Item>, cveId: string, k: nat)
    requires p.vulnerabilities == Some(items) || (p.vulnerabilities == None && items == [])
    ensures Get(Parsed(p), cveId) == None <==>
              cveId == "" || forall item | item in items :: IdOf(item) != Upper(cveId)
    ensures cveId != "" && IsLastOf(items, Upper(cveId), k) ==> Get(Parsed(p), cveId) == Some(EntryOf(items[k]))
    ensures Parsed(p).version == (match p.version case Some(version) => version case None => "unknown")
    ensures Parsed(p).released == (match p.released case Some(released) => released case None => "")
  {
    var key := Upper(cveId);
    if cveId != "" && IsLastOf(items, key, k) {
      LastListedWins(items, key, k);
    }
    if key in Collected(items).entries {
      OnlyListedKeys(items, key);
      var m: nat :| IsLastOf(items, key, m);
      assert items[m] in items;
    } else if cveId != "" {
      forall item | item in items
        ensures IdOf(item) != key
      {
        if IdOf(item) == key {
          var m := LastIndex(items, key);
          LastListedWins(items, key, m);
        }
      }
    }
  }

  lemma {:induction false} LastIndex(items: seq<Item>, key: string) returns (k: nat)
    requires exists item :: item in items && IdOf(item) == key
    ensures IsLastOf(items, key, k)
  {
    var last := |items| - 1;
    if IdOf(items[last]) == key {
      k := last;
    } else {
      k := LastIndex(items[..last], key);
    }
  }

  /** Two spellings of an id that differ in case only find the same. */
  lemma GetIgnoresCase(catalog: Catalog, a: string, b: string)
    requires |a| == |b| && forall k | 0 <= k < |a| :: SameLetter(a[k], b[k])
    ensures Get(catalog, a) == Get(catalog, b)
  {
    forall k | 0 <= k < |a|
      ensures Upper(a)[k] == Upper(b)[k]
    {
      SameLetterSameUpper(a[k], b[k]);
    }
    assert Upper(a) == Upper(b);
  }

  // ---- the cached form ----

  function ItemOf(e: Entry): Item {
    map["cveID" := e.cveId, "vendorProject" := e.vendorProject, "product" := e.product,
        "vulnerabilityName" := e.vulnerabilityName, "dateAdded" := e.dateAdded, "dueDate" := e.dueDate,
        "knownRansomwareCampaignUse" := if e.knownRansomwareUse then "Known" else "Unknown",
        "requiredAction" := e.requiredAction]
  }

  /** The keys in order are those of the entries, none twice, and each entry has its key as its id. */
  predicate Proper(d: Dictionary) {
    && (forall key | key in d.order :: key in d.entries) && (forall key | key in d.entries :: key in d.order)
    && (forall a, b | 0 <= a < b < |d.order| :: d.order[a] != d.order[b])
    && (forall key | key in d.entries :: ProperEntry(key, d.entries[key]))
  }

  predicate ProperEntry(key: string, e: Entry) {
    key != "" && e.cveId == key && Upper(key) == key
  }

  function SerializedItems(d: Dictionary): seq<Item>
    requires Proper(d)
  {
    seq(|d.order|, k requires 0 <= k < |d.order| => ItemOf(d.entries[d.order[k]]))
  }

  function Serialized(c: Catalog): Payload
    requires Proper(c.dictionary)
  {
    Payload(Some(c.version), Some(c.released), Some(SerializedItems(c.dictionary)))
  }

  lemma {:induction false} CollectedIsProper(items: seq<Item>)
    ensures Proper(Collected(items))
  {
    if items != [] {
      var last := |items| - 1;
      CollectedIsProper(items[..last]);
      UpperTwice(Text(items[last], "cveID"));
    }
  }

  lemma ItemRoundTrip(key: string, e: Entry)
    requires ProperEntry(key, e)
    ensures IdOf(ItemOf(e)) == key && EntryOf(ItemOf(e)) == e
    ensures ItemOf(e)["knownRansomwareCampaignUse"] in ["Known", "Unknown"]
  {
    assert Lower("Known") == "known";
    assert Lower("Unknown")[0] == 'u';
  }

  /** The first k keys of a dictionary with their entries. */
  function FirstKeys(d: Dictionary, k: nat): Dictionary
    requires Proper(d) && k <= |d.order|
  {
    Dictionary(d.order[..k], map key | key in d.order[..k] :: d.entries[key])
  }

  lemma FirstKeysGrow(d: Dictionary, k: nat)
    requires Proper(d) && k < |d.order|
    ensures d.order[k] !in FirstKeys(d, k).entries
    ensures FirstKeys(d, k + 1).order == FirstKeys(d, k).order + [d.order[k]]
    ensures FirstKeys(d, k + 1).entries == FirstKeys(d, k).entries[d.order[k] := d.entries[d.order[k]]]
  {
    assert d.order[..k + 1] == d.order[..k] + [d.order[k]];
  }

  lemma AddNext(d: Dictionary, k: nat, item: Item)
    requires Proper(d) && k < |d.order|
    requires IdOf(item) == d.order[k] && EntryOf(item) == d.entries[d.order[k]]
    ensures Add(FirstKeys(d, k), item) == FirstKeys(d, k + 1)
  {
    var key := d.order[k];
    assert ProperEntry(key, d.entries[key]);
    FirstKeysGrow(d, k);
  }

  lemma {:induction false} CollectedPrefix(d: Dictionary, items: seq<Item>, k: nat)
    requires Proper(d) && items == SerializedItems(d) && k <= |d.order|
    ensures Collected(items[..k]) == FirstKeys(d, k)
  {
    if k == 0 {
      assert items[..k] == [];
    } else {
      CollectedPrefix(d, items, k - 1);
      SerializedItemIs(d, items, k - 1);
      AddNext(d, k - 1, items[k - 1]);
      CollectedNext(items, k - 1);
    }
  }

  lemma CollectedNext(items: seq<Item>, k: nat)
    requires k < |items|
    ensures Collected(items[..k + 1]) == Add(Collected(items[..k]), items[k])
  {
    assert items[..k + 1][..k] == items[..k];
  }

  lemma SerializedItemIs(d: Dictionary, items: seq<Item>, k: nat)
    requires Proper(d) && items == SerializedItems(d) && k < |items|
    ensures IdOf(items[k]) == d.order[k] && EntryOf(items[k]) == d.entries[d.order[k]]
  {
    var key := d.order[k];
    assert ProperEntry(key, d.entries[key]);
    ItemRoundTrip(key, d.entries[key]);
  }

  lemma AllKeysAreAll(d: Dictionary)
    requires Proper(d)
    ensures FirstKeys(d, |d.order|) == d
  {
    assert d.order[..|d.order|] == d.order;
    assert FirstKeys(d, |d.order|).entries == d.entries;
  }

  lemma DictionaryRoundTrip(d: Dictionary, items: seq<Item>)
    requires Proper(d) && items == SerializedItems(d)
    ensures Collected(items) == d
  {
    CollectedPrefix(d, items, |d.order|);
    assert items[..|d.order|] == items;
    AllKeysAreAll(d);
  }

  /** Every catalog that was parsed survives the cache: parsing its serialized form gives it back, the
      order of its entries included. */
  lemma CatalogRoundTrip(p: Payload)
    ensures Proper(Parsed(p).dictionary)
    ensures Parsed(Serialized(Parsed(p))) == Parsed(p)
  {
    CollectedIsProper(Or(p.vulnerabilities, []));
    DictionaryRoundTrip(Parsed(p).dictionary, SerializedItems(Parsed(p).dictionary));
  }
}
