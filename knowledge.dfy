/**
 * The list and string helpers of the literature search: deduplication of search results by
 * DOI and title, APA-style citations, metadata filters, and the topic and key-finding
 * extractors.
 *
 * Metadata values are the four kinds the search results carry (`Value`); Python's `str`,
 * truth test and ordering are written out for them.
 */
module Knowledge {
  import opened Common
  import opened Text

  datatype Value = Str(s: string) | Int(i: int) | List(items: seq<Value>) | Null

  type Metadata = map<string, Value>

  /** A search result; only its metadata is read here. A result without a metadata entry
      reads as empty metadata, as `result.get('metadata', {})` does. */
  datatype SearchResult = SearchResult(metadata: Metadata, text: string, score: real)

  function TypeName(v: Value): string
  {
    match v
    case Str(_) => "str"
    case Int(_) => "int"
    case List(_) => "list"
    case Null => "NoneType"
  }

  /** `repr` of a value (quotes are not escaped). */
  function Repr(v: Value): string
    decreases v, 1
  {
    match v
    case Str(s) => "'" + s + "'"
    case Int(i) => IntToString(i)
    case List(items) => "[" + Join(ReprAll(items), ", ") + "]"
    case Null => "None"
  }

  function ReprAll(vs: seq<Value>): (r: seq<string>)
    ensures |r| == |vs|
    decreases vs, 0
  {
    if |vs| == 0 then [] else [Repr(vs[0])] + ReprAll(vs[1..])
  }

  /** `str` of a value, as an f-string formats it. */
  function PyStr(v: Value): string
  {
    if v.Str? then v.s else Repr(v)
  }

  /** Python's truth test on a value. */
  predicate Truthy(v: Value)
  {
    match v
    case Str(s) => |s| > 0
    case Int(i) => i != 0
    case List(items) => |items| > 0
    case Null => false
  }

  /** `metadata.get(key, default)`. */
  function Get(md: Metadata, key: string, default: Value): Value
  {
    if key in md then md[key] else default
  }

  // ---------- `_deduplicate_results` ----------

  /** `metadata.get(key, '').lower()`: a non-string value has no `lower`. */
  function LowerField(md: Metadata, key: string): (r: Result<string>)
    ensures r.Success? <==> key !in md || md[key].Str?
    ensures r.Success? ==> r.value == if key in md then Lower(md[key].s) else ""
  {
    match Get(md, key, Str(""))
    case Str(s) => Success(Lower(s))
    case v => Failure(AttributeError("'" + TypeName(v) + "' object has no attribute 'lower'"))
  }

  /** The lower-cased DOI and title a result is compared by; empty means absent. */
  datatype Key = Key(doi: string, title: string)

  function KeyOf(r: SearchResult): Result<Key>
  {
    match LowerField(r.metadata, "doi")
    case Failure(e) => Failure(e)
    case Success(doi) =>
      match LowerField(r.metadata, "title")
      case Failure(e) => Failure(e)
      case Success(title) => Success(Key(doi, title))
  }

  /** `k` repeats a non-empty DOI or a non-empty title of `earlier`. */
  predicate Clash(earlier: Key, k: Key)
  {
    (k.doi != "" && earlier.doi == k.doi) || (k.title != "" && earlier.title == k.title)
  }

  /** The loop state: the DOIs and titles seen so far and which results were kept. */
  datatype Seen = Seen(dois: set<string>, titles: set<string>, keep: seq<bool>)

  function NonEmpty(x: string): set<string>
  {
    if x != "" then {x} else {}
  }

  function Dedup(ks: seq<Key>): (s: Seen)
    ensures |s.keep| == |ks|
  {
    if |ks| == 0 then Seen({}, {}, [])
    else
      var s := Dedup(ks[..|ks| - 1]);
      var k := ks[|ks| - 1];
      if (k.doi != "" && k.doi in s.dois) || (k.title != "" && k.title in s.titles)
      then Seen(s.dois, s.titles, s.keep + [false])
      else Seen(s.dois + NonEmpty(k.doi), s.titles + NonEmpty(k.title), s.keep + [true])
  }

  /** The result `Dedup` adds for one more key, given the state before it. */
  function DedupStep(s: Seen, k: Key): Seen
  {
    if (k.doi != "" && k.doi in s.dois) || (k.title != "" && k.title in s.titles)
    then Seen(s.dois, s.titles, s.keep + [false])
    else Seen(s.dois + NonEmpty(k.doi), s.titles + NonEmpty(k.title), s.keep + [true])
  }

  lemma DedupSnoc(ks: seq<Key>, k: Key)
    ensures Dedup(ks + [k]) == DedupStep(Dedup(ks), k)
  {
    assert (ks + [k])[..|ks|] == ks;
  }

  /** The seen DOIs are exactly the non-empty DOIs of the kept results. */
  lemma {:induction false} DedupSeenDois(ks: seq<Key>)
    ensures forall x :: x in Dedup(ks).dois <==>
      exists j :: 0 <= j < |ks| && Dedup(ks).keep[j] && ks[j].doi == x && x != ""
  {
    if |ks| > 0 {
      var n := |ks| - 1;
      var init := ks[..n];
      DedupSeenDois(init);
      var s0, s := Dedup(init), Dedup(ks);
      assert ks == init + [ks[n]];
      DedupSnoc(init, ks[n]);
      forall x
        ensures x in s.dois <==> exists j :: 0 <= j < |ks| && s.keep[j] && ks[j].doi == x && x != ""
      {
        if x in s0.dois {
          var j :| 0 <= j < n && s0.keep[j] && init[j].doi == x && x != "";
          assert s.keep[j] && ks[j].doi == x;
        }
        if exists j :: 0 <= j < |ks| && s.keep[j] && ks[j].doi == x && x != "" {
          var j :| 0 <= j < |ks| && s.keep[j] && ks[j].doi == x && x != "";
          if j < n {
            assert s0.keep[j] && init[j].doi == x;
          }
        }
      }
    }
  }

  /** The seen titles are exactly the non-empty titles of the kept results. */
  lemma {:induction false} DedupSeenTitles(ks: seq<Key>)
    ensures forall x :: x in Dedup(ks).titles <==>
      exists j :: 0 <= j < |ks| && Dedup(ks).keep[j] && ks[j].title == x && x != ""
  {
    if |ks| > 0 {
      var n := |ks| - 1;
      var init := ks[..n];
      DedupSeenTitles(init);
      var s0, s := Dedup(init), Dedup(ks);
      assert ks == init + [ks[n]];
      DedupSnoc(init, ks[n]);
      forall x
        ensures x in s.titles <==> exists j :: 0 <= j < |ks| && s.keep[j] && ks[j].title == x && x != ""
      {
        if x in s0.titles {
          var j :| 0 <= j < n && s0.keep[j] && init[j].title == x && x != "";
          assert s.keep[j] && ks[j].title == x;
        }
        if exists j :: 0 <= j < |ks| && s.keep[j] && ks[j].title == x && x != "" {
          var j :| 0 <= j < |ks| && s.keep[j] && ks[j].title == x && x != "";
          if j < n {
            assert s0.keep[j] && init[j].title == x;
          }
        }
      }
    }
  }

  /** A result is dropped exactly when an earlier kept result shares its non-empty DOI or
      its non-empty title. */
  lemma {:induction false} DedupDropIff(ks: seq<Key>)
    ensures forall i :: 0 <= i < |ks| ==>
      (!Dedup(ks).keep[i] <==> exists j :: 0 <= j < i && Dedup(ks).keep[j] && Clash(ks[j], ks[i]))
  {
    if |ks| > 0 {
      var n := |ks| - 1;
      var init := ks[..n];
      DedupDropIff(init);
      DedupSeenDois(init);
      DedupSeenTitles(init);
      var s0, s := Dedup(init), Dedup(ks);
      assert ks == init + [ks[n]];
      DedupSnoc(init, ks[n]);
      forall i | 0 <= i < |ks|
        ensures !s.keep[i] <==> exists j :: 0 <= j < i && s.keep[j] && Clash(ks[j], ks[i])
      {
        if i < n {
          assert s.keep[i] == s0.keep[i] && ks[i] == init[i];
          assert forall j :: 0 <= j < i ==> s.keep[j] == s0.keep[j] && ks[j] == init[j];
        } else {
          assert forall j :: 0 <= j < n ==> s.keep[j] == s0.keep[j] && ks[j] == init[j];
        }
      }
    }
  }

  /** The kept results have pairwise distinct non-empty DOIs and titles, and a result with
      neither is always kept. */
  lemma DedupDistinct(ks: seq<Key>)
    ensures var keep := Dedup(ks).keep;
      forall i, j :: 0 <= i < j < |ks| && keep[i] && keep[j] ==>
        (ks[i].doi != "" ==> ks[i].doi != ks[j].doi) && (ks[i].title != "" ==> ks[i].title != ks[j].title)
    ensures forall i :: 0 <= i < |ks| && ks[i].doi == "" && ks[i].title == "" ==> Dedup(ks).keep[i]
  {
    DedupDropIff(ks);
    var keep := Dedup(ks).keep;
    forall i, j | 0 <= i < j < |ks| && keep[i] && keep[j]
      ensures (ks[i].doi != "" ==> ks[i].doi != ks[j].doi) && (ks[i].title != "" ==> ks[i].title != ks[j].title)
    {
      assert !Clash(ks[i], ks[j]);
    }
  }

  /** Deduplicating the kept keys again keeps all of them and sees the same sets. */
  lemma {:induction false} DedupSelected(ks: seq<Key>)
    ensures Dedup(Select(ks, Dedup(ks).keep)).dois == Dedup(ks).dois
    ensures Dedup(Select(ks, Dedup(ks).keep)).titles == Dedup(ks).titles
    ensures forall k :: 0 <= k < |Dedup(Select(ks, Dedup(ks).keep)).keep| ==> Dedup(Select(ks, Dedup(ks).keep)).keep[k]
  {
    if |ks| > 0 {
      var n := |ks| - 1;
      var init := ks[..n];
      DedupSelected(init);
      var s0 := Dedup(init);
      var s := Dedup(ks);
      assert ks == init + [ks[n]];
      DedupSnoc(init, ks[n]);
      assert s.keep == s0.keep + [s.keep[n]];
      SelectStep(ks, s0.keep, n, s.keep[n]);
      assert ks[..n + 1] == ks;
      var sel := Select(init, s0.keep);
      var again := Dedup(sel);
      if s.keep[n] {
        assert Select(ks, s.keep) == sel + [ks[n]];
        DedupSnoc(sel, ks[n]);
        assert Dedup(sel + [ks[n]]) == Seen(again.dois + NonEmpty(ks[n].doi), again.titles + NonEmpty(ks[n].title), again.keep + [true]);
      } else {
        assert Select(ks, s.keep) == sel;
      }
    }
  }

  /** `_deduplicate_results`: the keys are read in order (a non-string DOI or title raises),
      and the kept results are the selection `Dedup` marks, in input order. */
  function DedupResults(results: seq<SearchResult>): Result<seq<SearchResult>>
  {
    match MapAll(results, KeyOf)
    case Failure(e) => Failure(e)
    case Success(ks) => Success(Select(results, Dedup(ks).keep))
  }

  /** Deduplicating twice is deduplicating once. */
  lemma DedupIdempotent(results: seq<SearchResult>)
    requires DedupResults(results).Success?
    ensures DedupResults(DedupResults(results).value) == DedupResults(results)
  {
    var ks := MapAll(results, KeyOf).value;
    var keep := Dedup(ks).keep;
    MapAllSelect(results, KeyOf, keep);
    DedupSelected(ks);
    var once := Select(results, keep);
    var keep2 := Dedup(Select(ks, keep)).keep;
    assert |keep2| == |once| by {
      MapAllSpec(once, KeyOf);
    }
    SelectAll(once, keep2);
  }

  /** What the deduplication loop knows after `i` results: their keys, `Dedup` of them,
      and the results kept so far. */
  predicate DedupLoopState(results: seq<SearchResult>, i: nat, ks: seq<Key>, seen: Seen,
                           unique: seq<SearchResult>)
  {
    i <= |results| && MapAll(results[..i], KeyOf) == Success(ks) && Dedup(ks) == seen
    && |seen.keep| == i && unique == Select(results[..i], seen.keep)
  }

  /** One more result through the deduplication loop: `dropped` is the loop's test, and
      the new sets and list are what its branches leave. */
  lemma DedupLoopStep(results: seq<SearchResult>, i: nat, ks: seq<Key>, k: Key,
                      seenDois: set<string>, seenTitles: set<string>, keep: seq<bool>,
                      unique: seq<SearchResult>, dropped: bool,
                      dois': set<string>, titles': set<string>, unique': seq<SearchResult>)
    requires DedupLoopState(results, i, ks, Seen(seenDois, seenTitles, keep), unique)
    requires i < |results| && KeyOf(results[i]) == Success(k)
    requires dropped == ((k.doi != "" && k.doi in seenDois) || (k.title != "" && k.title in seenTitles))
    requires dois' == if !dropped && k.doi != "" then seenDois + {k.doi} else seenDois
    requires titles' == if !dropped && k.title != "" then seenTitles + {k.title} else seenTitles
    requires unique' == if dropped then unique else unique + [results[i]]
    ensures DedupLoopState(results, i + 1, ks + [k], Seen(dois', titles', keep + [!dropped]), unique')
  {
    MapAllStep(results, KeyOf, i, ks);
    DedupSnoc(ks, k);
    DedupStepBranches(Seen(seenDois, seenTitles, keep), k, dropped, dois', titles');
    SelectStep(results, keep, i, !dropped);
  }

  /** `DedupStep` is what the loop's branches do to the two sets and the keep flags. */
  lemma DedupStepBranches(s: Seen, k: Key, dropped: bool, dois': set<string>, titles': set<string>)
    requires dropped == ((k.doi != "" && k.doi in s.dois) || (k.title != "" && k.title in s.titles))
    requires dois' == if !dropped && k.doi != "" then s.dois + {k.doi} else s.dois
    requires titles' == if !dropped && k.title != "" then s.titles + {k.title} else s.titles
    ensures DedupStep(s, k) == Seen(dois', titles', s.keep + [!dropped])
  {
    if !dropped {
      assert s.dois + NonEmpty(k.doi) == dois';
      assert s.titles + NonEmpty(k.title) == titles';
    }
  }

  /** The loop stops at a result whose key cannot be read, with that error. */
  lemma DedupLoopFails(results: seq<SearchResult>, i: nat, ks: seq<Key>, seen: Seen,
                       unique: seq<SearchResult>)
    requires DedupLoopState(results, i, ks, seen, unique)
    requires i < |results| && KeyOf(results[i]).Failure?
    ensures DedupResults(results) == Failure(KeyOf(results[i]).error)
  {
    assert results[..i + 1][..i] == results[..i];
    MapAllPrefixFails(results, KeyOf, i + 1);
  }

  /** After the last result the loop holds the deduplicated list. */
  lemma DedupLoopDone(results: seq<SearchResult>, ks: seq<Key>, seen: Seen, unique: seq<SearchResult>)
    requires DedupLoopState(results, |results|, ks, seen, unique)
    ensures DedupResults(results) == Success(unique)
  {
    assert results[..|results|] == results;
  }

  /** The deduplication loop. */
  method DeduplicateResults(results: seq<SearchResult>) returns (r: Result<seq<SearchResult>>)
    ensures r == DedupResults(results)
  {
    var seenDois: set<string> := {};
    var seenTitles: set<string> := {};
    var unique: seq<SearchResult> := [];
    ghost var ks: seq<Key> := [];
    ghost var keep: seq<bool> := [];
    var i := 0;
    while i < |results|
      invariant DedupLoopState(results, i, ks, Seen(seenDois, seenTitles, keep), unique)
    {
      var key := KeyOf(results[i]);
      if key.Failure? {
        DedupLoopFails(results, i, ks, Seen(seenDois, seenTitles, keep), unique);
        return Failure(key.error);
      }
      ghost var (dois0, titles0, unique0) := (seenDois, seenTitles, unique);
      var doi, title := key.value.doi, key.value.title;
      var dropped := (doi != "" && doi in seenDois) || (title != "" && title in seenTitles);
      if !dropped {
        unique := unique + [results[i]];
        if doi != "" {
          seenDois := seenDois + {doi};
        }
        if title != "" {
          seenTitles := seenTitles + {title};
        }
      }
      DedupLoopStep(results, i, ks, key.value, dois0, titles0, keep, unique0, dropped,
                    seenDois, seenTitles, unique);
      keep := keep + [!dropped];
      ks := ks + [key.value];
      i := i + 1;
    }
    DedupLoopDone(results, ks, Seen(seenDois, seenTitles, keep), unique);
    return Success(unique);
  }

  // ---------- `_generate_citation` ----------

  /** `", ".join(vs)`: every item must be a string. */
  function JoinStrs(vs: seq<Value>, sep: string, offset: nat): (r: Result<string>)
    ensures r.Success? <==> forall k :: 0 <= k < |vs| ==> vs[k].Str?
    decreases |vs|
  {
    if |vs| == 0 then Success("")
    else if !vs[0].Str? then
      Failure(TypeError("sequence item " + NatToString(offset) + ": expected str instance, "
                        + TypeName(vs[0]) + " found"))
    else
      match JoinStrs(vs[1..], sep, offset + 1)
      case Failure(e) =>
        assert forall k :: 1 <= k < |vs| ==> vs[1..][k - 1] == vs[k];
        Failure(e)
      case Success(rest) =>
        assert forall k :: 1 <= k < |vs| ==> vs[1..][k - 1] == vs[k];
        Success(if |vs| == 1 then vs[0].s else vs[0].s + sep + rest)
  }

  /** The author string: one author as given, two or three as "A, B & C", more as
      "First et al.", a non-list through `str`; an empty list fails at `authors[-1]`. */
  function AuthorsString(authors: Value): (r: Result<string>)
    ensures authors == List([]) ==> r == Failure(IndexError("list index out of range"))
    ensures !authors.List? ==> r == Success(PyStr(authors))
    ensures authors.List? && |authors.items| == 1 ==> r == Success(PyStr(authors.items[0]))
    ensures authors.List? && |authors.items| == 2 && authors.items[0].Str? ==>
      r == Success(authors.items[0].s + " & " + PyStr(authors.items[1]))
    ensures authors.List? && |authors.items| == 3 && authors.items[0].Str? && authors.items[1].Str? ==>
      r == Success(authors.items[0].s + ", " + authors.items[1].s + " & " + PyStr(authors.items[2]))
    ensures authors.List? && |authors.items| > 3 ==> r == Success(PyStr(authors.items[0]) + " et al.")
    ensures r.Failure? <==>
      (authors.List? && (|authors.items| == 0 ||
        (2 <= |authors.items| <= 3 && exists k :: 0 <= k < |authors.items| - 1 && !authors.items[k].Str?)))
  {
    match authors
    case List(items) =>
      if |items| == 1 then Success(PyStr(items[0]))
      else if |items| <= 3 then
        var front := items[..if |items| > 0 then |items| - 1 else 0];
        assert forall k :: 0 <= k < |front| ==> front[k] == items[k];
        match JoinStrs(front, ", ", 0)
        case Failure(e) => Failure(e)
        case Success(joined) =>
          if |items| == 0 then Failure(IndexError("list index out of range"))
          else
            assert |items| == 2 ==> front == [items[0]];
            assert |items| == 3 ==> front[1..] == [items[1]];
            assert |items| == 3 && items[1].Str? ==> JoinStrs(front[1..], ", ", 1) == Success(items[1].s);
            Success(joined + " & " + PyStr(items[|items| - 1]))
      else Success(PyStr(items[0]) + " et al.")
    case _ => Success(PyStr(authors))
  }

  /** `"{authors} ({year}). {title}. "` */
  function CitationHead(authors: string, md: Metadata): string
  {
    authors + " (" + PyStr(Get(md, "year", Str("n.d."))) + "). " + PyStr(Get(md, "title", Str("Untitled"))) + ". "
  }

  /** The journal fragment, which carries volume, issue and pages after the italic
      journal name and ends in a period. */
  function JournalFragment(md: Metadata): string
  {
    var volume, issue := Get(md, "volume", Str("")), Get(md, "issue", Str(""));
    var pages := Get(md, "pages", Str(""));
    var f0 := "*" + PyStr(Get(md, "journal", Str(""))) + "*";
    var f1 := if Truthy(volume) then f0 + (", *" + PyStr(volume) + "*") else f0;
    var f2 := if Truthy(issue) then f1 + ("(" + PyStr(issue) + ")") else f1;
    var f3 := if Truthy(pages) then f2 + (", " + PyStr(pages)) else f2;
    f3 + "."
  }

  /** The journal part of a citation: empty without a (truthy) journal. */
  function JournalPart(md: Metadata): string
  {
    if Truthy(Get(md, "journal", Str(""))) then JournalFragment(md) else ""
  }

  function DoiPart(md: Metadata): string
  {
    var doi := Get(md, "doi", Str(""));
    if Truthy(doi) then " https://doi.org/" + PyStr(doi) else ""
  }

  function Citation(md: Metadata): Result<string>
  {
    match AuthorsString(Get(md, "authors", Str("Unknown authors")))
    case Failure(e) => Failure(e)
    case Success(a) => Success(CitationHead(a, md) + JournalPart(md) + DoiPart(md))
  }

  /** The journal fragment opens with the italic journal name and closes with a period. */
  lemma JournalFragmentBounds(md: Metadata)
    ensures StartsWith(JournalFragment(md), "*" + PyStr(Get(md, "journal", Str(""))) + "*")
    ensures EndsWith(JournalFragment(md), ".")
  {
    var volume, issue := Get(md, "volume", Str("")), Get(md, "issue", Str(""));
    var pages := Get(md, "pages", Str(""));
    var f0 := "*" + PyStr(Get(md, "journal", Str(""))) + "*";
    var f1 := if Truthy(volume) then f0 + (", *" + PyStr(volume) + "*") else f0;
    var f2 := if Truthy(issue) then f1 + ("(" + PyStr(issue) + ")") else f1;
    var f3 := if Truthy(pages) then f2 + (", " + PyStr(pages)) else f2;
    assert StartsWith(f1, f0);
    assert StartsWith(f2, f0);
    assert StartsWith(f3, f0);
    assert (f3 + ".")[..|f0|] == f3[..|f0|];
  }

  /** The citation layout: the head first; with no journal, nothing of volume, issue or
      pages; the journal fragment next when there is a journal; and the DOI link last
      exactly when the DOI is truthy. */
  lemma CitationLayout(md: Metadata)
    requires Citation(md).Success?
    ensures var c := Citation(md).value;
      var head := CitationHead(AuthorsString(Get(md, "authors", Str("Unknown authors"))).value, md);
      && StartsWith(c, head)
      && (Truthy(Get(md, "doi", Str(""))) ==> EndsWith(c, " https://doi.org/" + PyStr(Get(md, "doi", Str("")))))
      && (!Truthy(Get(md, "doi", Str(""))) ==> c == head + JournalPart(md))
      && (!Truthy(Get(md, "journal", Str(""))) ==> c == head + DoiPart(md))
      && (Truthy(Get(md, "journal", Str(""))) ==> StartsWith(c[|head|..], JournalFragment(md)))
  {
    var c := Citation(md).value;
    var head := CitationHead(AuthorsString(Get(md, "authors", Str("Unknown authors"))).value, md);
    var j, d := JournalPart(md), DoiPart(md);
    assert c == head + j + d;
    assert (head + j + d)[..|head|] == head;
    assert (head + j + d)[|head + j|..] == d;
    assert c[|head|..] == j + d;
    assert (j + d)[..|j|] == j;
  }

  /** `_generate_citation`, building the string piece by piece. */
  method GenerateCitation(result: SearchResult) returns (r: Result<string>)
    ensures r == Citation(result.metadata)
  {
    var md := result.metadata;
    var authors := AuthorsString(Get(md, "authors", Str("Unknown authors")));
    if authors.Failure? {
      return Failure(authors.error);
    }
    var journal, volume := Get(md, "journal", Str("")), Get(md, "volume", Str(""));
    var issue, pages := Get(md, "issue", Str("")), Get(md, "pages", Str(""));
    var doi := Get(md, "doi", Str(""));
    var citation := CitationHead(authors.value, md);
    if Truthy(journal) {
      var fragment := "*" + PyStr(journal) + "*";
      if Truthy(volume) {
        fragment := fragment + (", *" + PyStr(volume) + "*");
      }
      if Truthy(issue) {
        fragment := fragment + ("(" + PyStr(issue) + ")");
      }
      if Truthy(pages) {
        fragment := fragment + (", " + PyStr(pages));
      }
      assert fragment + "." == JournalFragment(md);
      citation := citation + (fragment + ".");
    } else {
      assert citation + JournalPart(md) == citation;
    }
    assert citation == CitationHead(authors.value, md) + JournalPart(md);
    if Truthy(doi) {
      citation := citation + (" https://doi.org/" + PyStr(doi));
    } else {
      assert citation + DoiPart(md) == citation;
    }
    return Success(citation);
  }

  // ---------- `_apply_filters` ----------

  /** A filter value: a list (membership), a dict (its `$gte`/`$lte` bounds), or anything
      else (equality). */
  datatype Filter = OneOf(options: seq<Value>) | Range(gte: Option<Value>, lte: Option<Value>) | Equals(expected: Value)

  /** Python's `a < b` (op "<") or `a > b` (op ">") on integers and on strings; other pairs
      raise TypeError. */
  function Compare(op: string, a: Value, b: Value): (r: Result<bool>)
    requires op == "<" || op == ">"
    ensures r.Success? <==> (a.Int? && b.Int?) || (a.Str? && b.Str?)
    ensures a.Int? && b.Int? ==> r.value == if op == "<" then a.i < b.i else a.i > b.i
  {
    if a.Int? && b.Int? then Success(if op == "<" then a.i < b.i else a.i > b.i)
    else if a.Str? && b.Str? then Success(if op == "<" then StrLess(a.s, b.s) else StrLess(b.s, a.s))
    else Failure(TypeError("'" + op + "' not supported between instances of '" + TypeName(a)
                           + "' and '" + TypeName(b) + "'"))
  }

  /** Whether one present metadata value passes one filter. Both bounds of a range are
      compared even when the first already fails. */
  function FilterHolds(v: Value, f: Filter): Result<bool>
  {
    match f
    case OneOf(options) => Success(v in options)
    case Equals(expected) => Success(v == expected)
    case Range(gte, lte) =>
      var lo := if gte.Some? then Compare("<", v, gte.value) else Success(false);
      if lo.Failure? then Failure(lo.error)
      else
        var hi := if lte.Some? then Compare(">", v, lte.value) else Success(false);
        if hi.Failure? then Failure(hi.error)
        else Success(!lo.value && !hi.value)
  }

  /** `match` after the remaining filters, given its value so far. */
  function AndThen(b: bool, rest: Result<bool>): Result<bool>
  {
    match rest
    case Failure(e) => Failure(e)
    case Success(x) => Success(b && x)
  }

  /** The inner filter loop: a missing key stops it with no match; a failed comparison
      raises; a mismatch clears `match` and the loop goes on. */
  function Matches(md: Metadata, filters: seq<(string, Filter)>): Result<bool>
  {
    if |filters| == 0 then Success(true)
    else if filters[0].0 !in md then Success(false)
    else
      match FilterHolds(md[filters[0].0], filters[0].1)
      case Failure(e) => Failure(e)
      case Success(b) => AndThen(b, Matches(md, filters[1..]))
  }

  predicate Passes(md: Metadata, filter: (string, Filter))
  {
    filter.0 in md && FilterHolds(md[filter.0], filter.1) == Success(true)
  }

  /** A result matches exactly when every filter key is present and every filter holds. */
  lemma {:induction false} MatchesIff(md: Metadata, filters: seq<(string, Filter)>)
    ensures Matches(md, filters) == Success(true) <==> forall i :: 0 <= i < |filters| ==> Passes(md, filters[i])
  {
    if |filters| > 0 && filters[0].0 in md {
      MatchesIff(md, filters[1..]);
      assert forall i :: 1 <= i < |filters| ==> filters[1..][i - 1] == filters[i];
    }
  }

  function MatchOf(filters: seq<(string, Filter)>): SearchResult -> Result<bool>
  {
    (r: SearchResult) => Matches(r.metadata, filters)
  }

  /** `_apply_filters`. */
  function Filtered(results: seq<SearchResult>, filters: seq<(string, Filter)>): Result<seq<SearchResult>>
  {
    match MapAll(results, MatchOf(filters))
    case Failure(e) => Failure(e)
    case Success(flags) => Success(Select(results, flags))
  }

  /** Every filter key is present in the metadata and every filter holds. */
  predicate PassesAll(md: Metadata, filters: seq<(string, Filter)>)
  {
    forall k :: 0 <= k < |filters| ==> Passes(md, filters[k])
  }

  /** Filtering keeps, in order, exactly the results that pass every filter. */
  lemma FilteredKeepsPassing(results: seq<SearchResult>, filters: seq<(string, Filter)>)
    requires Filtered(results, filters).Success?
    ensures Filtered(results, filters).value == Select(results, PassFlags(results, filters))
  {
    MapAllSpec(results, MatchOf(filters));
    var flags, wanted := MapAll(results, MatchOf(filters)).value, PassFlags(results, filters);
    forall i | 0 <= i < |results|
      ensures flags[i] == wanted[i]
    {
      MatchFlag(results[i], filters);
    }
    assert flags == wanted;
  }

  /** For each result, whether it passes every filter. */
  function PassFlags(results: seq<SearchResult>, filters: seq<(string, Filter)>): (flags: seq<bool>)
    ensures |flags| == |results|
    ensures forall i :: 0 <= i < |results| ==> flags[i] == PassesAll(results[i].metadata, filters)
  {
    seq(|results|, i requires 0 <= i < |results| => PassesAll(results[i].metadata, filters))
  }

  /** A successful match of one result is the test that it passes every filter. */
  lemma MatchFlag(r: SearchResult, filters: seq<(string, Filter)>)
    requires MatchOf(filters)(r).Success?
    ensures MatchOf(filters)(r).value == PassesAll(r.metadata, filters)
  {
    assert MatchOf(filters)(r) == Matches(r.metadata, filters);
    MatchesIff(r.metadata, filters);
  }

  /** The filter loop for one result. */
  method MatchesFilters(md: Metadata, filters: seq<(string, Filter)>) returns (r: Result<bool>)
    ensures r == Matches(md, filters)
  {
    var matched := true;
    var j := 0;
    while j < |filters|
      invariant 0 <= j <= |filters|
      invariant Matches(md, filters) == AndThen(matched, Matches(md, filters[j..]))
    {
      assert filters[j..][1..] == filters[j + 1..];
      var (key, f) := filters[j];
      if key !in md {
        matched := false;
        break;
      }
      var h := FilterHolds(md[key], f);
      if h.Failure? {
        return Failure(h.error);
      }
      if !h.value {
        matched := false;
      }
      j := j + 1;
    }
    return Success(matched);
  }

  /** The outer loop of `_apply_filters`. */
  method ApplyFilters(results: seq<SearchResult>, filters: seq<(string, Filter)>)
    returns (r: Result<seq<SearchResult>>)
    ensures r == Filtered(results, filters)
  {
    var filtered: seq<SearchResult> := [];
    ghost var flags: seq<bool> := [];
    var i := 0;
    while i < |results|
      invariant 0 <= i <= |results|
      invariant MapAll(results[..i], MatchOf(filters)) == Success(flags)
      invariant filtered == Select(results[..i], flags)
    {
      var m := MatchesFilters(results[i].metadata, filters);
      assert results[..i + 1][..i] == results[..i];
      assert MatchOf(filters)(results[i]) == m;
      if m.Failure? {
        MapAllPrefixFails(results, MatchOf(filters), i + 1);
        return Failure(m.error);
      }
      assert (flags + [m.value])[..|flags|] == flags;
      if m.value {
        filtered := filtered + [results[i]];
      }
      flags := flags + [m.value];
      i := i + 1;
    }
    assert results[..i] == results;
    return Success(filtered);
  }

  // ---------- `extract_research_topic` and `extract_key_finding` ----------

  const Stopwords := ["how", "what", "why", "when", "where", "should", "can", "i", "my", "the", "a", "an"]

  predicate IsKeyword(w: string)
  {
    w !in Stopwords && |w| > 3
  }

  function Keywords(ws: seq<string>): seq<string>
  {
    Select(ws, seq(|ws|, i requires 0 <= i < |ws| => IsKeyword(ws[i])))
  }

  function ExtractResearchTopic(message: string): string
  {
    Join(Take(Keywords(Words(Lower(message))), 5), " ")
  }

  /** Every keyword of a word list is a keyword and one of the words. */
  lemma KeywordsOf(ws: seq<string>)
    ensures forall k :: 0 <= k < |Keywords(ws)| ==> IsKeyword(Keywords(ws)[k]) && Keywords(ws)[k] in ws
  {
    var flags := seq(|ws|, i requires 0 <= i < |ws| => IsKeyword(ws[i]));
    forall k | 0 <= k < |Keywords(ws)|
      ensures IsKeyword(Keywords(ws)[k]) && Keywords(ws)[k] in ws
    {
      SelectMembers(ws, flags, Keywords(ws)[k]);
    }
  }

  /** The first five keywords of a list of words, joined on spaces, split back into
      themselves. */
  lemma {:induction false} TopKeywordsRoundTrip(all: seq<string>)
    requires AllWords(all)
    ensures Words(Join(Take(Keywords(all), 5), " ")) == Take(Keywords(all), 5)
  {
    var kws := Keywords(all);
    var top := Take(kws, 5);
    KeywordsOf(all);
    assert AllWords(top) by {
      forall k | 0 <= k < |top|
        ensures |top[k]| > 0 && NoSpace(top[k])
      {
        assert top[k] == kws[k];
        assert top[k] in all;
        var j :| 0 <= j < |all| && all[j] == top[k];
      }
    }
    WordsJoin(top);
  }

  /** The topic splits back into the first five keywords of the lower-cased message, in
      order: at most five words, each longer than three characters, none a stopword, each a
      word of the message. */
  lemma {:induction false} TopicWords(message: string)
    ensures Words(ExtractResearchTopic(message)) == Take(Keywords(Words(Lower(message))), 5)
    ensures |Words(ExtractResearchTopic(message))| <= 5
    ensures forall k :: 0 <= k < |Words(ExtractResearchTopic(message))| ==>
      IsKeyword(Words(ExtractResearchTopic(message))[k])
      && Words(ExtractResearchTopic(message))[k] in Words(Lower(message))
  {
    var all := Words(Lower(message));
    WordsAreWords(Lower(message));
    TopKeywordsRoundTrip(all);
    KeywordsOf(all);
    TakeKeywords(all);
  }

  lemma TakeKeywords(all: seq<string>)
    requires forall k :: 0 <= k < |Keywords(all)| ==> IsKeyword(Keywords(all)[k]) && Keywords(all)[k] in all
    ensures forall k :: 0 <= k < |Take(Keywords(all), 5)| ==>
      IsKeyword(Take(Keywords(all), 5)[k]) && Take(Keywords(all), 5)[k] in all
  {
    var top := Take(Keywords(all), 5);
    assert forall k :: 0 <= k < |top| ==> top[k] == Keywords(all)[k];
  }

  /** Python's `s[:n]` for any integer `n`. */
  function PrefixOf(s: string, n: int): (r: string)
    ensures n >= 0 ==> |r| <= n
    ensures StartsWith(s, r)
  {
    if n >= 0 then Take(s, n) else s[..if |s| + n > 0 then |s| + n else 0]
  }

  function ExtractKeyFinding(text: string, maxLength: int): string
  {
    var finding := Strip(Split(text, '.')[0]);
    if |finding| <= maxLength then finding else PrefixOf(finding, maxLength) + "..."
  }

  lemma StripInside(s: string)
    ensures forall c :: c in Strip(s) ==> c in s
    ensures |Strip(s)| > 0 ==> !IsSpace(Strip(s)[0]) && !IsSpace(Strip(s)[|Strip(s)| - 1])
  {
    var t := DropLeadingSpace(s);
    var u := DropTrailingSpace(t);
    assert forall c :: c in t ==> c in s;
    assert forall c :: c in u ==> c in t;
    if |u| > 0 {
      assert u[0] == t[0];
    }
  }

  /** The key finding is the stripped first sentence, with no period and no surrounding
      whitespace, when it fits; otherwise its first `max_length` characters and "...", so
      for a non-negative limit it is at most `max_length + 3` long. */
  lemma KeyFindingSpec(text: string, maxLength: int)
    ensures var f := Strip(Split(text, '.')[0]);
      && '.' !in f
      && (|f| > 0 ==> !IsSpace(f[0]) && !IsSpace(f[|f| - 1]))
      && (|f| <= maxLength ==> ExtractKeyFinding(text, maxLength) == f)
      && (|f| > maxLength ==> StartsWith(ExtractKeyFinding(text, maxLength), PrefixOf(f, maxLength))
                              && EndsWith(ExtractKeyFinding(text, maxLength), "..."))
      && (maxLength >= 0 ==> |ExtractKeyFinding(text, maxLength)| <= maxLength + 3)
  {
    SplitFirst(text, '.');
    StripInside(Split(text, '.')[0]);
    var f := Strip(Split(text, '.')[0]);
    if |f| > maxLength {
      var p := PrefixOf(f, maxLength);
      assert (p + "...")[..|p|] == p;
      assert (p + "...")[|p|..] == "...";
    }
  }
}
