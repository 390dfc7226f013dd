/**
 * The index of PDF price lists by brand, searched by keyword (src/prices/price_list.rs).
 */
module PriceList {

  import opened Wrappers
  import opened Text

  /** One configured PDF price list. */
  datatype PdfPriceListConfig = PdfPriceListConfig(pdfPath: string, brand: string, keywords: seq<string>)

  datatype PdfPriceListEntry = PdfPriceListEntry(pdfPath: string, keywords: seq<string>)

  datatype PriceListInfo = PriceListInfo(brand: string, pdfPath: string, keywords: seq<string>)

  datatype PriceListError = ServiceCreationError

  /** Entries by lower-cased brand, each brand's entries in configuration order. */
  datatype PriceListService = PriceListService(byBrand: map<string, seq<PdfPriceListEntry>>)

  function EntryOf(c: PdfPriceListConfig): PdfPriceListEntry
  {
    PdfPriceListEntry(c.pdfPath, c.keywords)
  }

  /** The map `new` builds by pushing each configuration under its lower-cased brand. */
  function Grouped(configs: seq<PdfPriceListConfig>): map<string, seq<PdfPriceListEntry>>
    decreases |configs|
  {
    if |configs| == 0 then map[]
    else
      var g := Grouped(configs[..|configs| - 1]);
      var c := configs[|configs| - 1];
      var key := Lower(c.brand);
      g[key := (if key in g then g[key] else []) + [EntryOf(c)]]
  }

  /** The entries of the configurations whose lower-cased brand is `brand`, in order. */
  function EntriesFor(configs: seq<PdfPriceListConfig>, brand: string): seq<PdfPriceListEntry>
    decreases |configs|
  {
    if |configs| == 0 then []
    else
      var c := configs[|configs| - 1];
      EntriesFor(configs[..|configs| - 1], brand) + (if Lower(c.brand) == brand then [EntryOf(c)] else [])
  }

  /**
   * `new` groups the configurations under their lower-cased brand: a brand is a key exactly
   * when some configuration names it, and its entries are those configurations in order.
   */
  lemma {:induction false} GroupedSpec(configs: seq<PdfPriceListConfig>, brand: string)
    ensures brand in Grouped(configs) <==> exists i :: 0 <= i < |configs| && Lower(configs[i].brand) == brand
    ensures brand in Grouped(configs) ==> Grouped(configs)[brand] == EntriesFor(configs, brand)
    ensures brand !in Grouped(configs) ==> EntriesFor(configs, brand) == []
    decreases |configs|
  {
    if |configs| > 0 {
      var n := |configs| - 1;
      GroupedSpec(configs[..n], brand);
      if exists i :: 0 <= i < n && Lower(configs[..n][i].brand) == brand {
        var i :| 0 <= i < n && Lower(configs[..n][i].brand) == brand;
        assert Lower(configs[i].brand) == brand;
      }
      if exists i :: 0 <= i < |configs| && Lower(configs[i].brand) == brand {
        var i :| 0 <= i < |configs| && Lower(configs[i].brand) == brand;
        if i < n {
          assert Lower(configs[..n][i].brand) == brand;
        }
      }
    }
  }

  /** `PriceListService::new`: one pass over the configurations; it never fails. */
  method New(configs: seq<PdfPriceListConfig>) returns (r: Result<PriceListService, PriceListError>)
    ensures r == Success(PriceListService(Grouped(configs)))
  {
    var byBrand: map<string, seq<PdfPriceListEntry>> := map[];
    var i := 0;
    while i < |configs|
      invariant 0 <= i <= |configs|
      invariant byBrand == Grouped(configs[..i])
    {
      var c := configs[i];
      var key := Lower(c.brand);
      var existing := if key in byBrand then byBrand[key] else [];
      byBrand := byBrand[key := existing + [PdfPriceListEntry(c.pdfPath, c.keywords)]];
      assert configs[..i + 1][..i] == configs[..i];
      i := i + 1;
    }
    assert configs[..i] == configs;
    r := Success(PriceListService(byBrand));
  }

  /** Some requested keyword equals one of the entry's keywords, ignoring ASCII case. */
  predicate MatchesAny(entry: PdfPriceListEntry, keywords: seq<string>)
  {
    exists i, j :: 0 <= i < |keywords| && 0 <= j < |entry.keywords| && EqIgnoreCase(entry.keywords[j], keywords[i])
  }

  /** The first entry, in order, that matches one of the keywords. */
  function FirstMatching(entries: seq<PdfPriceListEntry>, keywords: seq<string>): (r: Option<PdfPriceListEntry>)
    decreases |entries|
  {
    if |entries| == 0 then None
    else if MatchesAny(entries[0], keywords) then Some(entries[0])
    else FirstMatching(entries[1..], keywords)
  }

  /** Entry `i` is the first of `entries` to match. */
  predicate FirstMatchAt(entries: seq<PdfPriceListEntry>, keywords: seq<string>, i: int)
  {
    0 <= i < |entries| && MatchesAny(entries[i], keywords)
    && forall j :: 0 <= j < i ==> !MatchesAny(entries[j], keywords)
  }

  lemma {:induction false} FirstMatchingSpec(entries: seq<PdfPriceListEntry>, keywords: seq<string>)
    ensures FirstMatching(entries, keywords).None? <==> forall i :: 0 <= i < |entries| ==> !MatchesAny(entries[i], keywords)
    ensures forall i :: FirstMatchAt(entries, keywords, i) ==> FirstMatching(entries, keywords) == Some(entries[i])
    decreases |entries|
  {
    if |entries| > 0 {
      FirstMatchingSpec(entries[1..], keywords);
      forall i | FirstMatchAt(entries, keywords, i)
        ensures FirstMatching(entries, keywords) == Some(entries[i])
      {
        if i > 0 {
          assert FirstMatchAt(entries[1..], keywords, i - 1);
        }
      }
      if !MatchesAny(entries[0], keywords) && FirstMatching(entries, keywords).None? {
        forall i | 0 <= i < |entries| ensures !MatchesAny(entries[i], keywords)
        {
          if i > 0 {
            assert entries[i] == entries[1..][i - 1];
          }
        }
      }
    }
  }

  /** `find_pricelist`: the path of the brand's first entry matching a keyword. */
  function FindPricelist(svc: PriceListService, brand: string, keywords: seq<string>): (r: Option<string>)
  {
    if Lower(brand) !in svc.byBrand then None
    else
      match FirstMatching(svc.byBrand[Lower(brand)], keywords)
      case None => None
      case Some(entry) => Some(entry.pdfPath)
  }

  /**
   * An unconfigured brand (compared lower-cased) finds nothing; otherwise the result is the path
   * of the first entry, in configuration order, with a keyword equal to a requested keyword
   * ignoring ASCII case, and None when no entry has one.
   */
  lemma FindPricelistSpec(svc: PriceListService, brand: string, keywords: seq<string>)
    ensures Lower(brand) !in svc.byBrand ==> FindPricelist(svc, brand, keywords) == None
    ensures Lower(brand) in svc.byBrand ==>
      && (FindPricelist(svc, brand, keywords).None?
          <==> forall i :: 0 <= i < |svc.byBrand[Lower(brand)]| ==> !MatchesAny(svc.byBrand[Lower(brand)][i], keywords))
      && (forall i :: FirstMatchAt(svc.byBrand[Lower(brand)], keywords, i)
            ==> FindPricelist(svc, brand, keywords) == Some(svc.byBrand[Lower(brand)][i].pdfPath))
  {
    if Lower(brand) in svc.byBrand {
      FirstMatchingSpec(svc.byBrand[Lower(brand)], keywords);
    }
  }

  /** With no keywords nothing is found. */
  lemma {:induction false} NoKeywordsFindNothing(svc: PriceListService, brand: string)
    ensures FindPricelist(svc, brand, []) == None
  {
    if Lower(brand) in svc.byBrand {
      FirstMatchingSpec(svc.byBrand[Lower(brand)], []);
    }
  }

  /** The path of the first configuration, in file order, under `brand` with a matching keyword. */
  function FirstMatchingConfig(configs: seq<PdfPriceListConfig>, brand: string, keywords: seq<string>): Option<string>
    decreases |configs|
  {
    if |configs| == 0 then None
    else if Lower(configs[0].brand) == brand && MatchesAny(EntryOf(configs[0]), keywords) then Some(configs[0].pdfPath)
    else FirstMatchingConfig(configs[1..], brand, keywords)
  }

  /** `EntriesFor` read from the front: the first configuration's entry, if it is the brand's, then the rest's. */
  lemma {:induction false} EntriesForFront(configs: seq<PdfPriceListConfig>, brand: string)
    requires |configs| > 0
    ensures EntriesFor(configs, brand)
         == (if Lower(configs[0].brand) == brand then [EntryOf(configs[0])] else []) + EntriesFor(configs[1..], brand)
    decreases |configs|
  {
    var n := |configs| - 1;
    if n > 0 {
      EntriesForFront(configs[..n], brand);
      assert configs[..n][1..] == configs[1..][..n - 1];
      assert configs[1..][n - 1] == configs[n];
    } else {
      assert configs[1..] == [];
    }
  }

  /** Searching the brand's entries finds the first matching configuration of that brand. */
  lemma {:induction false} FirstMatchingOfEntries(configs: seq<PdfPriceListConfig>, brand: string, keywords: seq<string>)
    ensures match FirstMatching(EntriesFor(configs, brand), keywords)
            case None => FirstMatchingConfig(configs, brand, keywords).None?
            case Some(e) => FirstMatchingConfig(configs, brand, keywords) == Some(e.pdfPath)
    decreases |configs|
  {
    if |configs| > 0 {
      EntriesForFront(configs, brand);
      FirstMatchingOfEntries(configs[1..], brand, keywords);
      var rest := EntriesFor(configs[1..], brand);
      var all := EntriesFor(configs, brand);
      if Lower(configs[0].brand) == brand {
        assert all[0] == EntryOf(configs[0]) && all[1..] == rest;
        assert FirstMatching(all, keywords)
            == if MatchesAny(EntryOf(configs[0]), keywords) then Some(EntryOf(configs[0])) else FirstMatching(rest, keywords);
      } else {
        assert all == rest;
      }
    }
  }

  /**
   * `find_pricelist` over the lists `new` built: the path of the first configuration, in file
   * order, whose brand equals the requested one ignoring ASCII case and that has a keyword equal
   * to a requested one ignoring ASCII case; None when there is none.
   */
  lemma FindPricelistOfConfigs(configs: seq<PdfPriceListConfig>, brand: string, keywords: seq<string>)
    ensures FindPricelist(PriceListService(Grouped(configs)), brand, keywords)
         == FirstMatchingConfig(configs, Lower(brand), keywords)
  {
    GroupedSpec(configs, Lower(brand));
    FirstMatchingOfEntries(configs, Lower(brand), keywords);
  }

  /** Some configuration under `brand` with a matching keyword makes the first such one exist. */
  lemma {:induction false} FirstMatchingConfigFound(configs: seq<PdfPriceListConfig>, brand: string,
                                                    keywords: seq<string>, k: int)
    requires 0 <= k < |configs| && Lower(configs[k].brand) == brand && MatchesAny(EntryOf(configs[k]), keywords)
    ensures FirstMatchingConfig(configs, brand, keywords).Some?
    decreases |configs|
  {
    if k > 0 && !(Lower(configs[0].brand) == brand && MatchesAny(EntryOf(configs[0]), keywords)) {
      FirstMatchingConfigFound(configs[1..], brand, keywords, k - 1);
    }
  }

  /**
   * A configured list is found under its brand written in any ASCII case, by any one of its
   * keywords, and what comes back is the first configuration of that brand, in file order, that
   * has that keyword.
   */
  lemma FindConfiguredList(configs: seq<PdfPriceListConfig>, k: int, brand: string, keyword: string)
    requires 0 <= k < |configs| && keyword in configs[k].keywords && Lower(brand) == Lower(configs[k].brand)
    ensures FindPricelist(PriceListService(Grouped(configs)), brand, [keyword])
         == FirstMatchingConfig(configs, Lower(brand), [keyword])
    ensures FindPricelist(PriceListService(Grouped(configs)), brand, [keyword]).Some?
  {
    FindPricelistOfConfigs(configs, brand, [keyword]);
    var m :| 0 <= m < |configs[k].keywords| && configs[k].keywords[m] == keyword;
    assert EqIgnoreCase(EntryOf(configs[k]).keywords[m], [keyword][0]);
    FirstMatchingConfigFound(configs, Lower(brand), [keyword], k);
  }

  /** The listing rows of one brand's entries. */
  function BrandInfos(brand: string, entries: seq<PdfPriceListEntry>): (r: seq<PriceListInfo>)
    ensures |r| == |entries|
    ensures forall i :: 0 <= i < |entries| ==> r[i] == PriceListInfo(brand, entries[i].pdfPath, entries[i].keywords)
  {
    seq(|entries|, i requires 0 <= i < |entries| => PriceListInfo(brand, entries[i].pdfPath, entries[i].keywords))
  }

  /** All listing rows of the brands in `keys`, as a multiset (the map's order is unspecified). */
  ghost function InfosOf(m: map<string, seq<PdfPriceListEntry>>, keys: set<string>): multiset<PriceListInfo>
    requires keys <= m.Keys
    decreases keys
  {
    if keys == {} then multiset{}
    else
      var b :| b in keys;
      InfosOf(m, keys - {b}) + multiset(BrandInfos(b, m[b]))
  }

  /** Any brand can be taken out of `InfosOf` first. */
  lemma {:induction false} InfosOfRemove(m: map<string, seq<PdfPriceListEntry>>, keys: set<string>, b: string)
    requires keys <= m.Keys && b in keys
    ensures InfosOf(m, keys) == InfosOf(m, keys - {b}) + multiset(BrandInfos(b, m[b]))
    decreases keys
  {
    var c :| c in keys && InfosOf(m, keys) == InfosOf(m, keys - {c}) + multiset(BrandInfos(c, m[c]));
    if c != b {
      InfosOfRemove(m, keys - {c}, b);
      InfosOfRemove(m, keys - {b}, c);
      assert keys - {c} - {b} == keys - {b} - {c};
    }
  }

  /** Every row of `InfosOf` belongs to one of the brands, with that brand's path and keywords. */
  lemma {:induction false} InfosOfMembers(m: map<string, seq<PdfPriceListEntry>>, keys: set<string>, x: PriceListInfo)
    requires keys <= m.Keys
    ensures x in InfosOf(m, keys) <==> x.brand in keys && PdfPriceListEntry(x.pdfPath, x.keywords) in m[x.brand]
    decreases keys
  {
    if keys != {} {
      var b :| b in keys && InfosOf(m, keys) == InfosOf(m, keys - {b}) + multiset(BrandInfos(b, m[b]));
      InfosOfMembers(m, keys - {b}, x);
      if x in BrandInfos(b, m[b]) {
        var i :| 0 <= i < |m[b]| && BrandInfos(b, m[b])[i] == x;
        assert m[b][i] == PdfPriceListEntry(x.pdfPath, x.keywords);
      }
      if x.brand == b && PdfPriceListEntry(x.pdfPath, x.keywords) in m[b] {
        var i :| 0 <= i < |m[b]| && m[b][i] == PdfPriceListEntry(x.pdfPath, x.keywords);
        assert BrandInfos(b, m[b])[i] == x;
      }
    }
  }

  /** The brands a filter selects: all of them, or those equal to it ignoring ASCII case. */
  function Selected(m: map<string, seq<PdfPriceListEntry>>, filter: Option<string>): (r: set<string>)
    ensures r <= m.Keys
  {
    set b | b in m && (filter.None? || EqIgnoreCase(b, filter.value))
  }

  /** The inner loop of `list_available_pricelists`: push one row per entry of `brand`. */
  method PushBrand(infos: seq<PriceListInfo>, brand: string, entries: seq<PdfPriceListEntry>)
    returns (r: seq<PriceListInfo>)
    ensures r == infos + BrandInfos(brand, entries)
  {
    r := infos;
    var j := 0;
    while j < |entries|
      invariant 0 <= j <= |entries|
      invariant r == infos + BrandInfos(brand, entries[..j])
    {
      r := r + [PriceListInfo(brand, entries[j].pdfPath, entries[j].keywords)];
      j := j + 1;
    }
    assert entries[..j] == entries;
  }

  /**
   * `list_available_pricelists`: every entry of every selected brand, once each, with brand,
   * path and keywords copied; brands are visited in an unspecified order.
   */
  method ListAvailablePricelists(svc: PriceListService, filter: Option<string>) returns (infos: seq<PriceListInfo>)
    ensures multiset(infos) == InfosOf(svc.byBrand, Selected(svc.byBrand, filter))
  {
    var m := svc.byBrand;
    ghost var sel := Selected(m, filter);
    infos := [];
    var visited: set<string> := {};
    var remaining := m.Keys;
    while remaining != {}
      invariant remaining <= m.Keys && visited == m.Keys - remaining
      invariant multiset(infos) == InfosOf(m, sel * visited)
      decreases remaining
    {
      var brand :| brand in remaining;
      var keep := filter.None? || EqIgnoreCase(brand, filter.value);
      assert keep <==> brand in sel;
      if keep {
        infos := PushBrand(infos, brand, m[brand]);
        InfosOfRemove(m, sel * (visited + {brand}), brand);
        assert sel * (visited + {brand}) - {brand} == sel * visited;
      } else {
        assert sel * (visited + {brand}) == sel * visited;
      }
      visited := visited + {brand};
      remaining := remaining - {brand};
    }
    assert sel * visited == sel;
  }

  /**
   * A listing row is a configured entry of a selected brand: with a filter, only brands equal to
   * it ignoring ASCII case appear; without one, every configured entry appears.
   */
  lemma ListedRows(svc: PriceListService, filter: Option<string>, x: PriceListInfo)
    ensures x in InfosOf(svc.byBrand, Selected(svc.byBrand, filter))
      <==> x.brand in svc.byBrand && (filter.None? || EqIgnoreCase(x.brand, filter.value))
           && PdfPriceListEntry(x.pdfPath, x.keywords) in svc.byBrand[x.brand]
  {
    InfosOfMembers(svc.byBrand, Selected(svc.byBrand, filter), x);
  }
}
