/**
 * The search endpoint (io/github/warriorzz/ktify/search/Search.kt): the phrase algebra the query
 * is built from, the query builder, and the rules for the request's parameters.
 *
 * Kotlin picks an extension operator by the STATIC types of its operands, so each of the six
 * `plus` overloads is its own function here, and each call site uses the one Kotlin resolves.
 * `Phrase + Phrase` looks at the runtime class of its right operand only.
 */
module Search {
  import opened Wrappers
  import opened Kotlin
  import opened Json
  import opened Http

  // ---------------------------------------------------------------------------------------------
  // Phrase and EmptyPhrase

  /** A `Phrase` (an `explicit` one is an exact match), or an instance of its subclass `EmptyPhrase`. */
  datatype Phrase = Phrase(value: string, explicit: bool) | EmptyPhrase

  /** The `value` property: `EmptyPhrase` passes "" to its superclass. */
  function PhraseValue(p: Phrase): string {
    if p.EmptyPhrase? then "" else p.value
  }

  /** `toString()`: an explicit phrase is parenthesised. */
  function PhraseString(p: Phrase): (s: string)
    ensures p.Phrase? && p.explicit ==> s == "(" + p.value + ")"
    ensures !(p.Phrase? && p.explicit) ==> s == PhraseValue(p)
  {
    if p.Phrase? && p.explicit then "(" + p.value + ")" else PhraseValue(p)
  }

  /** `not()`: "NOT " before the raw value, so the parentheses of an explicit phrase are lost. */
  function Not(p: Phrase): (r: Phrase)
    ensures r.Phrase? && !r.explicit && r.value == "NOT " + PhraseValue(p)
  {
    Phrase("NOT " + PhraseValue(p), false)
  }

  /** `append(value)`: the raw value, a space, and the appended text. */
  function Append(p: Phrase, s: string): (r: Phrase)
    ensures r.Phrase? && !r.explicit && r.value == PhraseValue(p) + " " + s
  {
    Phrase(PhraseValue(p) + " " + s, false)
  }

  /** `encode()`: every space of the raw value becomes "%20". */
  function Encode(p: Phrase): Phrase {
    Phrase(Replace(PhraseValue(p), ' ', "%20"), false)
  }

  /** An encoded phrase holds no space, and encoding it again changes nothing. */
  lemma EncodeRemovesSpacesAndIsIdempotent(p: Phrase)
    ensures ' ' !in PhraseValue(Encode(p))
    ensures Encode(Encode(p)) == Encode(p)
  {
    ReplaceRemoves(PhraseValue(p), ' ', "%20");
    ReplaceAbsent(PhraseValue(Encode(p)), ' ', "%20");
  }

  /** `not()` and `append` read the raw value: an explicit phrase loses its parentheses. */
  lemma NotAndAppendDropParentheses(v: string, s: string)
    ensures PhraseString(Not(Phrase(v, true))) == "NOT " + v
    ensures PhraseString(Append(Phrase(v, true), s)) == v + " " + s
  {
  }

  // The six `plus` overloads, named by the static types of their operands.

  /** `Phrase.plus(String)`. */
  function PlusString(p: Phrase, s: string): Phrase {
    Phrase(PhraseString(p) + " " + s, false)
  }

  /** `Phrase.plus(Phrase)`: an `EmptyPhrase` on the right is dropped, anything else is joined with a space. */
  function PlusPhrase(p: Phrase, q: Phrase): (r: Phrase)
    ensures q.EmptyPhrase? ==> r == p
    ensures !q.EmptyPhrase? ==> r == Phrase(PhraseString(p) + " " + PhraseString(q), false)
  {
    if q.EmptyPhrase? then PlusEmptyPhrase(p) else Phrase(PhraseString(p) + " " + PhraseString(q), false)
  }

  /** `Phrase.plus(EmptyPhrase)`. */
  function PlusEmptyPhrase(p: Phrase): Phrase {
    p
  }

  /** `EmptyPhrase.plus(String)`. */
  function EmptyPlusString(s: string): Phrase {
    Phrase(s, false)
  }

  /** `EmptyPhrase.plus(Phrase)`. */
  function EmptyPlusPhrase(q: Phrase): Phrase {
    q
  }

  /** `EmptyPhrase.plus(EmptyPhrase)`. */
  function EmptyPlusEmpty(): Phrase {
    EmptyPhrase
  }

  /**
   * `EmptyPhrase` is a right identity of `Phrase + Phrase`, and a left identity when the left
   * operand is statically an `EmptyPhrase`; `Empty + Empty` is `Empty`.
   */
  lemma EmptyPhraseIdentities(p: Phrase)
    ensures PlusPhrase(p, EmptyPhrase) == p
    ensures PlusEmptyPhrase(p) == p
    ensures EmptyPlusPhrase(p) == p
    ensures EmptyPlusEmpty() == EmptyPhrase
  {
  }

  /** When the left operand is only statically a `Phrase`, an `EmptyPhrase` there is not an identity: a space leads. */
  lemma EmptyPhraseOnTheLeftLeavesASpace(q: Phrase)
    requires !q.EmptyPhrase?
    ensures PlusPhrase(EmptyPhrase, q) == Phrase(" " + PhraseString(q), false)
  {
  }

  // ---------------------------------------------------------------------------------------------
  // The reduces of `build`

  /** `phrases.map { it.toString() }`. */
  function PhraseStrings(ps: seq<Phrase>): (ss: seq<string>)
    ensures |ss| == |ps| && forall i :: 0 <= i < |ps| ==> ss[i] == PhraseString(ps[i])
  {
    if |ps| == 0 then [] else PhraseStrings(ps[..|ps| - 1]) + [PhraseString(ps[|ps| - 1])]
  }

  /**
   * `keywords.reduce { acc, phrase -> acc + phrase }`, or `EmptyPhrase()` when there are none.
   * Only an empty list, or one holding an `EmptyPhrase`, can reduce to an `EmptyPhrase`; two or
   * more ending in a real phrase reduce to a plain one.
   */
  function KeywordPhrase(keywords: seq<Phrase>): (p: Phrase)
    ensures (forall i :: 0 <= i < |keywords| ==> !keywords[i].EmptyPhrase?) ==> (p.EmptyPhrase? <==> |keywords| == 0)
    ensures |keywords| >= 2 && !keywords[|keywords| - 1].EmptyPhrase? ==> p.Phrase? && !p.explicit
  {
    if |keywords| == 0 then EmptyPhrase
    else if |keywords| == 1 then keywords[0]
    else PlusPhrase(KeywordPhrase(keywords[..|keywords| - 1]), keywords[|keywords| - 1])
  }

  /**
   * As written: `notKeywords.reduce { acc, phrase -> acc + phrase.not() }`, whose first element is
   * never negated, so a lone `EmptyPhrase` stays one.
   */
  function NotKeywordPhraseAsWritten(notKeywords: seq<Phrase>): (p: Phrase)
    ensures p.EmptyPhrase? <==> |notKeywords| == 0 || (|notKeywords| == 1 && notKeywords[0].EmptyPhrase?)
    ensures |notKeywords| >= 2 ==> p.Phrase? && !p.explicit
  {
    if |notKeywords| == 0 then EmptyPhrase
    else if |notKeywords| == 1 then notKeywords[0]
    else PlusPhrase(NotKeywordPhraseAsWritten(notKeywords[..|notKeywords| - 1]), Not(notKeywords[|notKeywords| - 1]))
  }

  /** As intended: every not-keyword negated, then reduced with `+`; only no not-keywords give an `EmptyPhrase`. */
  function NotKeywordPhrase(notKeywords: seq<Phrase>): (p: Phrase)
    ensures p.EmptyPhrase? <==> |notKeywords| == 0
    ensures |notKeywords| >= 1 ==> p.Phrase? && !p.explicit
  {
    if |notKeywords| == 0 then EmptyPhrase
    else if |notKeywords| == 1 then Not(notKeywords[0])
    else PlusPhrase(NotKeywordPhrase(notKeywords[..|notKeywords| - 1]), Not(notKeywords[|notKeywords| - 1]))
  }

  /** `xs.map { "NOT " + it.value }`. */
  function Negations(ps: seq<Phrase>): (ss: seq<string>)
    ensures |ss| == |ps| && forall i :: 0 <= i < |ps| ==> ss[i] == "NOT " + PhraseValue(ps[i])
  {
    if |ps| == 0 then [] else Negations(ps[..|ps| - 1]) + ["NOT " + PhraseValue(ps[|ps| - 1])]
  }

  lemma {:induction false} JoinSnoc(xs: seq<string>, y: string, sep: string)
    requires |xs| >= 1
    ensures Join(xs + [y], sep) == Join(xs, sep) + sep + y
  {
    if |xs| == 1 {
      assert (xs + [y])[1..] == [y];
    } else {
      assert (xs + [y])[1..] == xs[1..] + [y];
      JoinSnoc(xs[1..], y, sep);
    }
  }

  /** The keywords, none of them an `EmptyPhrase`, are joined by single spaces, each as its `toString`. */
  lemma {:induction false} KeywordPhraseIsJoin(keywords: seq<Phrase>)
    requires |keywords| >= 1
    requires forall i :: 0 <= i < |keywords| ==> !keywords[i].EmptyPhrase?
    ensures PhraseString(KeywordPhrase(keywords)) == Join(PhraseStrings(keywords), " ")
  {
    if |keywords| > 1 {
      var init, last := keywords[..|keywords| - 1], keywords[|keywords| - 1];
      KeywordPhraseIsJoin(init);
      assert KeywordPhrase(keywords) == Phrase(PhraseString(KeywordPhrase(init)) + " " + PhraseString(last), false);
      JoinSnoc(PhraseStrings(init), PhraseString(last), " ");
    }
  }

  /** As intended, every not-keyword appears negated, in order, joined by single spaces. */
  lemma {:induction false} NotKeywordPhraseNegatesAll(notKeywords: seq<Phrase>)
    requires |notKeywords| >= 1
    ensures PhraseString(NotKeywordPhrase(notKeywords)) == Join(Negations(notKeywords), " ")
  {
    if |notKeywords| > 1 {
      var init := notKeywords[..|notKeywords| - 1];
      NotKeywordPhraseNegatesAll(init);
      JoinSnoc(Negations(init), "NOT " + PhraseValue(notKeywords[|notKeywords| - 1]), " ");
    }
  }

  /**
   * As written, from the second not-keyword on the two agree; the first one is simply not negated
   * and keeps its own printed form.
   */
  lemma {:induction false} NotKeywordsAsWrittenKeepFirst(notKeywords: seq<Phrase>)
    requires |notKeywords| >= 1
    ensures PhraseString(NotKeywordPhraseAsWritten(notKeywords))
         == Join([PhraseString(notKeywords[0])] + Negations(notKeywords)[1..], " ")
  {
    if |notKeywords| > 1 {
      var init := notKeywords[..|notKeywords| - 1];
      var last := "NOT " + PhraseValue(notKeywords[|notKeywords| - 1]);
      var initWords := [PhraseString(init[0])] + Negations(init)[1..];
      NotKeywordsAsWrittenKeepFirst(init);
      assert [PhraseString(notKeywords[0])] + Negations(notKeywords)[1..] == initWords + [last] by {
        assert Negations(notKeywords) == Negations(init) + [last];
        assert Negations(notKeywords)[1..] == Negations(init)[1..] + [last];
      }
      assert PhraseString(NotKeywordPhraseAsWritten(notKeywords))
          == PhraseString(NotKeywordPhraseAsWritten(init)) + " " + last;
      JoinSnoc(initWords, last, " ");
    } else {
      assert Negations(notKeywords)[1..] == [];
      assert [PhraseString(notKeywords[0])] + Negations(notKeywords)[1..] == [PhraseString(notKeywords[0])];
    }
  }

  // ---------------------------------------------------------------------------------------------
  // YearPhase

  /** `YearPhase(begin, end)`. */
  datatype YearPhase = YearPhase(begin: Int32, end: Int32)

  /** The one-year constructor `YearPhase(year)`. */
  function SingleYear(year: Int32): YearPhase {
    YearPhase(year, year)
  }

  /** `getYears()`: "B" for a single year, "B-E" for a range; it always starts with the first year. */
  function GetYears(y: YearPhase): (s: string)
    ensures IntLiteral(y.begin) <= s
    ensures s == IntLiteral(y.begin) <==> y.begin == y.end
  {
    if y.begin == y.end then IntLiteral(y.begin) else IntLiteral(y.begin) + "-" + IntLiteral(y.end)
  }

  /** A single year prints as that year, which reads back. */
  lemma SingleYearPrintsOnce(year: Int32)
    ensures GetYears(SingleYear(year)) == IntLiteral(year)
    ensures ParseInt(GetYears(SingleYear(year))) == Some(year)
  {
    ParseIntLiteral(year);
  }

  /** A range of non-negative years splits at its dash into both ends, which read back. */
  lemma YearRangeReadsBack(y: YearPhase)
    requires y.begin != y.end && y.begin >= 0 && y.end >= 0
    ensures var parts := Split(GetYears(y), '-');
      |parts| == 2 && ParseInt(parts[0]) == Some(y.begin) && ParseInt(parts[1]) == Some(y.end)
  {
    var b, e := IntLiteral(y.begin), IntLiteral(y.end);
    assert '-' !in b && '-' !in e by {
      assert AllDigits(b) && AllDigits(e);
    }
    assert Join([b, e], "-") == b + "-" + Join([e], "-");
    SplitJoin([b, e], '-');
    ParseIntLiteral(y.begin);
    ParseIntLiteral(y.end);
  }

  // ---------------------------------------------------------------------------------------------
  // SearchQueueBuilder

  /** A run of filter fragments: empty, or ending in the space that follows its last fragment. */
  predicate Fragments(s: string) {
    s == "" || s[|s| - 1] == ' '
  }

  lemma FragmentsConcat(a: string, b: string)
    requires Fragments(a) && Fragments(b)
    ensures Fragments(a + b)
    ensures a + b == "" <==> a == "" && b == ""
  {
    if b == "" {
      assert a + b == a;
    }
  }

  /** One fragment: the text and a space when the filter is set, nothing otherwise. */
  function Fragment(isSet: bool, text: string): (s: string)
    ensures Fragments(s) && (s == "" <==> !isSet)
  {
    if isSet then text + " " else ""
  }

  /** The filter fragments, each only when set and each followed by a space, in this fixed order. */
  function Filters(genre: Option<string>, artist: Option<string>, album: Option<string>, track: Option<string>,
                   years: Option<YearPhase>, hipsterAlbumsOnly: bool, newAlbumsOnly: bool): (s: string)
    ensures Fragments(s)
    ensures s == "" <==> genre.None? && artist.None? && album.None? && track.None? && years.None?
                         && !hipsterAlbumsOnly && !newAlbumsOnly
    ensures genre.Some? ==> "genre:\"" + genre.value + "\" " <= s
  {
    var genreString := Fragment(genre.Some?, if genre.Some? then "genre:\"" + genre.value + "\"" else "");
    var artistString := Fragment(artist.Some?, if artist.Some? then "artist:" + artist.value else "");
    var albumString := Fragment(album.Some?, if album.Some? then "album:" + album.value else "");
    var trackString := Fragment(track.Some?, if track.Some? then "track:" + track.value else "");
    var yearsString := Fragment(years.Some?, if years.Some? then "year:" + GetYears(years.value) else "");
    var hipsterString := Fragment(hipsterAlbumsOnly, "tag:hipster");
    var newAlbumsString := Fragment(newAlbumsOnly, "tag:new");
    var tags := hipsterString + newAlbumsString;
    FragmentsConcat(hipsterString, newAlbumsString);
    var fromYears := yearsString + tags;
    FragmentsConcat(yearsString, tags);
    var fromTrack := trackString + fromYears;
    FragmentsConcat(trackString, fromYears);
    var fromAlbum := albumString + fromTrack;
    FragmentsConcat(albumString, fromTrack);
    var fromArtist := artistString + fromAlbum;
    FragmentsConcat(artistString, fromAlbum);
    FragmentsConcat(genreString, fromArtist);
    assert genre.Some? ==> genreString == "genre:\"" + genre.value + "\" ";
    genreString + fromArtist
  }

  /**
   * The filters, fragment by fragment: genre (quoted), artist, album, track, year, then the two
   * tags, each present only when set and followed by a space.
   */
  lemma FiltersSpelledOut(genre: Option<string>, artist: Option<string>, album: Option<string>,
                          track: Option<string>, years: Option<YearPhase>, hipsterAlbumsOnly: bool,
                          newAlbumsOnly: bool)
    ensures Filters(genre, artist, album, track, years, hipsterAlbumsOnly, newAlbumsOnly)
         == (if genre.Some? then "genre:\"" + genre.value + "\" " else "")
          + ((if artist.Some? then "artist:" + artist.value + " " else "")
          + ((if album.Some? then "album:" + album.value + " " else "")
          + ((if track.Some? then "track:" + track.value + " " else "")
          + ((if years.Some? then "year:" + GetYears(years.value) + " " else "")
          + ((if hipsterAlbumsOnly then "tag:hipster " else "")
          + (if newAlbumsOnly then "tag:new " else ""))))))
  {
    var g := Fragment(genre.Some?, if genre.Some? then "genre:\"" + genre.value + "\"" else "");
    var a := Fragment(artist.Some?, if artist.Some? then "artist:" + artist.value else "");
    var al := Fragment(album.Some?, if album.Some? then "album:" + album.value else "");
    var t := Fragment(track.Some?, if track.Some? then "track:" + track.value else "");
    var y := Fragment(years.Some?, if years.Some? then "year:" + GetYears(years.value) else "");
    var h := Fragment(hipsterAlbumsOnly, "tag:hipster");
    var n := Fragment(newAlbumsOnly, "tag:new");
    assert Filters(genre, artist, album, track, years, hipsterAlbumsOnly, newAlbumsOnly)
        == g + (a + (al + (t + (y + (h + n)))));
    QuotedGenreFragment(genre);
    OptionalFragment(artist, "artist:");
    OptionalFragment(album, "album:");
    OptionalFragment(track, "track:");
    OptionalFragment(if years.Some? then Some(GetYears(years.value)) else None, "year:");
    TagFragments(hipsterAlbumsOnly, newAlbumsOnly);
  }

  lemma QuotedGenreFragment(genre: Option<string>)
    ensures Fragment(genre.Some?, if genre.Some? then "genre:\"" + genre.value + "\"" else "")
         == if genre.Some? then "genre:\"" + genre.value + "\" " else ""
  {
    if genre.Some? {
      var x := "genre:\"" + genre.value;
      assert "\"" + " " == "\" ";
      assert x + "\"" + " " == x + ("\"" + " ");
    }
  }

  lemma TagFragments(hipsterAlbumsOnly: bool, newAlbumsOnly: bool)
    ensures Fragment(hipsterAlbumsOnly, "tag:hipster") == if hipsterAlbumsOnly then "tag:hipster " else ""
    ensures Fragment(newAlbumsOnly, "tag:new") == if newAlbumsOnly then "tag:new " else ""
  {
    assert "tag:hipster" + " " == "tag:hipster ";
    assert "tag:new" + " " == "tag:new ";
  }

  /** The fragment of an optional filter: its prefix, value and a space, or nothing. */
  lemma OptionalFragment(o: Option<string>, prefix: string)
    ensures Fragment(o.Some?, if o.Some? then prefix + o.value else "") == if o.Some? then prefix + o.value + " " else ""
  {
  }

  /** The query `build()` produces from its parts: keywords, then not-keywords, then the filters, encoded. */
  function Query(keywordPhrase: Phrase, notKeywordPhrase: Phrase, filters: string): Phrase {
    Encode(Append(PlusPhrase(keywordPhrase, notKeywordPhrase), filters))
  }

  /**
   * The words of a query before its filters, spelled out from the keywords' printed forms joined
   * by spaces and the not-keyword text `negated`, if any: a lone keyword counts by its raw value,
   * and not-keywords without keywords are preceded by a space.
   */
  function QueryWords(keywords: seq<Phrase>, negated: Option<string>): string {
    match negated
    case None =>
      if |keywords| == 0 then "" else if |keywords| == 1 then PhraseValue(keywords[0])
      else Join(PhraseStrings(keywords), " ")
    case Some(n) =>
      if |keywords| == 0 then " " + n else Join(PhraseStrings(keywords), " ") + " " + n
  }

  /** The keyword reduce followed by any not-keyword phrase yields the spelled-out words. */
  lemma QueryWordsSpellOut(keywords: seq<Phrase>, notKeywordPhrase: Phrase)
    requires forall i :: 0 <= i < |keywords| ==> !keywords[i].EmptyPhrase?
    ensures PhraseValue(PlusPhrase(KeywordPhrase(keywords), notKeywordPhrase))
         == QueryWords(keywords, if notKeywordPhrase.EmptyPhrase? then None else Some(PhraseString(notKeywordPhrase)))
  {
    if notKeywordPhrase.EmptyPhrase? {
      KeywordWords(keywords);
    } else {
      KeywordAndNotWords(keywords, notKeywordPhrase);
    }
  }

  lemma KeywordWords(keywords: seq<Phrase>)
    requires forall i :: 0 <= i < |keywords| ==> !keywords[i].EmptyPhrase?
    ensures PhraseValue(KeywordPhrase(keywords)) == QueryWords(keywords, None)
  {
    if |keywords| >= 2 {
      KeywordPhraseIsJoin(keywords);
      var k := KeywordPhrase(keywords);
      assert k.Phrase? && !k.explicit;
    }
  }

  lemma KeywordAndNotWords(keywords: seq<Phrase>, notKeywordPhrase: Phrase)
    requires forall i :: 0 <= i < |keywords| ==> !keywords[i].EmptyPhrase?
    requires !notKeywordPhrase.EmptyPhrase?
    ensures PhraseValue(PlusPhrase(KeywordPhrase(keywords), notKeywordPhrase))
         == QueryWords(keywords, Some(PhraseString(notKeywordPhrase)))
  {
    var k := KeywordPhrase(keywords);
    assert PlusPhrase(k, notKeywordPhrase) == Phrase(PhraseString(k) + " " + PhraseString(notKeywordPhrase), false);
    if |keywords| == 0 {
      assert PhraseString(k) == "";
    } else if |keywords| == 1 {
      assert PhraseStrings(keywords) == [PhraseString(keywords[0])];
    } else {
      KeywordPhraseIsJoin(keywords);
    }
  }

  /** The words of the corrected query: the keywords, then every not-keyword negated. */
  function CorrectedNegated(notKeywords: seq<Phrase>): Option<string> {
    if |notKeywords| == 0 then None else Some(Join(Negations(notKeywords), " "))
  }

  /** The words of the query as written: the first not-keyword printed as it is, the rest negated. */
  function AsWrittenNegated(notKeywords: seq<Phrase>): Option<string> {
    if |notKeywords| == 0 || (|notKeywords| == 1 && notKeywords[0].EmptyPhrase?) then None
    else Some(Join([PhraseString(notKeywords[0])] + Negations(notKeywords)[1..], " "))
  }

  /** With the corrected reduce, the query is the spelled-out words and the filters, encoded. */
  lemma BuiltQuery(keywords: seq<Phrase>, notKeywords: seq<Phrase>, filters: string)
    ensures (forall i :: 0 <= i < |keywords| ==> !keywords[i].EmptyPhrase?) ==>
      Query(KeywordPhrase(keywords), NotKeywordPhrase(notKeywords), filters).value
        == Replace(QueryWords(keywords, CorrectedNegated(notKeywords)) + " " + filters, ' ', "%20")
  {
    if forall i :: 0 <= i < |keywords| ==> !keywords[i].EmptyPhrase? {
      QueryWordsSpellOut(keywords, NotKeywordPhrase(notKeywords));
      if |notKeywords| >= 1 {
        NotKeywordPhraseNegatesAll(notKeywords);
      }
    }
  }

  /** With the reduce as written, the query is the as-written words and the filters, encoded. */
  lemma BuiltQueryAsWritten(keywords: seq<Phrase>, notKeywords: seq<Phrase>, filters: string)
    ensures (forall i :: 0 <= i < |keywords| ==> !keywords[i].EmptyPhrase?) ==>
      Query(KeywordPhrase(keywords), NotKeywordPhraseAsWritten(notKeywords), filters).value
        == Replace(QueryWords(keywords, AsWrittenNegated(notKeywords)) + " " + filters, ' ', "%20")
  {
    if forall i :: 0 <= i < |keywords| ==> !keywords[i].EmptyPhrase? {
      QueryWordsSpellOut(keywords, NotKeywordPhraseAsWritten(notKeywords));
      if |notKeywords| >= 1 {
        NotKeywordsAsWrittenKeepFirst(notKeywords);
      }
    }
  }

  class SearchQueueBuilder {
    var keywords: seq<Phrase>
    var notKeywords: seq<Phrase>
    var genre: Option<string>
    var artist: Option<string>
    var album: Option<string>
    var track: Option<string>
    var years: Option<YearPhase>
    var hipsterAlbumsOnly: bool
    var newAlbumsOnly: bool

    constructor ()
      ensures keywords == [] && notKeywords == []
      ensures genre.None? && artist.None? && album.None? && track.None? && years.None?
      ensures !hipsterAlbumsOnly && !newAlbumsOnly
    {
      keywords, notKeywords := [], [];
      genre, artist, album, track, years := None, None, None, None, None;
      hipsterAlbumsOnly, newAlbumsOnly := false, false;
    }

    function CurrentFilters(): string
      reads this
    {
      Filters(genre, artist, album, track, years, hipsterAlbumsOnly, newAlbumsOnly)
    }

    /**
     * `build()` as written: the first not-keyword is not negated. The query holds no space and,
     * when no keyword is an `EmptyPhrase`, encodes the keywords, the not-keywords and the filters.
     */
    function BuildAsWritten(): (q: Phrase)
      reads this
      ensures q.Phrase? && ' ' !in q.value
      ensures (forall i :: 0 <= i < |keywords| ==> !keywords[i].EmptyPhrase?) ==>
        q.value == Replace(QueryWords(keywords, AsWrittenNegated(notKeywords)) + " " + CurrentFilters(), ' ', "%20")
    {
      var joined := PlusPhrase(KeywordPhrase(keywords), NotKeywordPhraseAsWritten(notKeywords));
      EncodeRemovesSpacesAndIsIdempotent(Append(joined, CurrentFilters()));
      BuiltQueryAsWritten(keywords, notKeywords, CurrentFilters());
      Query(KeywordPhrase(keywords), NotKeywordPhraseAsWritten(notKeywords), CurrentFilters())
    }

    /**
     * `build()` with every not-keyword negated. The query holds no space and, when no keyword is
     * an `EmptyPhrase`, encodes the keywords, every not-keyword negated and the filters.
     */
    function Build(): (q: Phrase)
      reads this
      ensures q.Phrase? && ' ' !in q.value
      ensures (forall i :: 0 <= i < |keywords| ==> !keywords[i].EmptyPhrase?) ==>
        q.value == Replace(QueryWords(keywords, CorrectedNegated(notKeywords)) + " " + CurrentFilters(), ' ', "%20")
    {
      var joined := PlusPhrase(KeywordPhrase(keywords), NotKeywordPhrase(notKeywords));
      EncodeRemovesSpacesAndIsIdempotent(Append(joined, CurrentFilters()));
      BuiltQuery(keywords, notKeywords, CurrentFilters());
      Query(KeywordPhrase(keywords), NotKeywordPhrase(notKeywords), CurrentFilters())
    }
  }

  /** With no keywords and no filters, a single phrase `p` yields the query " p " before encoding. */
  lemma QueryOfLonePhrase(p: Phrase)
    requires !p.EmptyPhrase?
    ensures Query(EmptyPhrase, p, "") == Encode(Phrase(" " + PhraseString(p) + " ", false))
  {
    EmptyPhraseOnTheLeftLeavesASpace(p);
    var joined := PlusPhrase(EmptyPhrase, p);
    assert Append(joined, "") == Phrase(" " + PhraseString(p) + " ", false);
  }

  /** A single not-keyword reduces to its negation, or to itself as written. */
  lemma LoneNotKeywordReduces(v: string)
    ensures NotKeywordPhrase([Phrase(v, false)]) == Not(Phrase(v, false))
    ensures NotKeywordPhraseAsWritten([Phrase(v, false)]) == Phrase(v, false)
    ensures " " + PhraseString(Not(Phrase(v, false))) + " " == " NOT " + v + " "
    ensures " " + PhraseString(Phrase(v, false)) + " " == " " + v + " "
  {
  }

  /** A lone not-keyword that is not an exact match appears in the query negated. */
  lemma {:induction false} LoneNotKeywordIsNegated(v: string)
    ensures Query(EmptyPhrase, NotKeywordPhrase([Phrase(v, false)]), "")
         == Encode(Phrase(" NOT " + v + " ", false))
    ensures Query(EmptyPhrase, NotKeywordPhraseAsWritten([Phrase(v, false)]), "")
         == Encode(Phrase(" " + v + " ", false))
  {
    LoneNotKeywordReduces(v);
    QueryOfLonePhrase(Not(Phrase(v, false)));
    QueryOfLonePhrase(Phrase(v, false));
  }

  /**
   * Excluding one word (say "rock") and nothing else, the query as written searches for that
   * word, while the intended query excludes it.
   */
  lemma {:induction false} LoneNotKeywordQuery(v: string)
    requires ' ' !in v
    ensures Query(EmptyPhrase, NotKeywordPhraseAsWritten([Phrase(v, false)]), "").value == "%20" + v + "%20"
    ensures Query(EmptyPhrase, NotKeywordPhrase([Phrase(v, false)]), "").value == "%20NOT%20" + v + "%20"
  {
    LoneNotKeywordIsNegated(v);
    EncodeSurrounded(v);
    EncodeNegatedSurrounded(v);
  }

  lemma {:induction false} EncodeSurrounded(w: string)
    requires ' ' !in w
    ensures Replace(" " + w + " ", ' ', "%20") == "%20" + w + "%20"
  {
    assert " " + w + " " == [' '] + (w + " ");
    ReplaceStep(' ', w + " ", ' ', "%20");
    ReplaceConcat(w, " ", ' ', "%20");
    ReplaceAbsent(w, ' ', "%20");
    assert " " == [' '] + "";
    ReplaceStep(' ', "", ' ', "%20");
  }

  lemma {:induction false} EncodeNegatedSurrounded(w: string)
    requires ' ' !in w
    ensures Replace(" NOT " + w + " ", ' ', "%20") == "%20NOT%20" + w + "%20"
  {
    assert " NOT " + w + " " == " NOT" + (" " + w + " ");
    ReplaceConcat(" NOT", " " + w + " ", ' ', "%20");
    EncodeSurrounded(w);
    EncodeNot();
  }

  lemma EncodeNot()
    ensures Replace(" NOT", ' ', "%20") == "%20NOT"
  {
    assert " NOT" == [' '] + "NOT";
    ReplaceStep(' ', "NOT", ' ', "%20");
    ReplaceAbsent("NOT", ' ', "%20");
  }

  lemma ReplaceStep(head: char, rest: string, c: char, with: string)
    ensures Replace([head] + rest, c, with) == (if head == c then with else [head]) + Replace(rest, c, with)
  {
    assert ([head] + rest)[1..] == rest;
  }

  // ---------------------------------------------------------------------------------------------
  // The parameters of `searchItem`

  datatype ObjectType = Artist | Playlist | Album | Show | Track | Episode | User

  /** The `@SerialName` of each `ObjectType`. */
  function ObjectTypeName(t: ObjectType): (name: string)
    ensures '"' !in name && ',' !in name
  {
    match t
    case Artist => "artist"
    case Playlist => "playlist"
    case Album => "album"
    case Show => "show"
    case Track => "track"
    case Episode => "episode"
    case User => "user"
  }

  lemma ObjectTypeNamesInjective(a: ObjectType, b: ObjectType)
    ensures ObjectTypeName(a) == ObjectTypeName(b) ==> a == b
  {
  }

  /** `Json.encodeToString(ObjectType.serializer(), t)`: the name as a JSON string, in quotes. */
  function EncodedObjectType(t: ObjectType): string {
    Quoted(ObjectTypeName(t))
  }

  function EncodedObjectTypes(types: seq<ObjectType>): (ss: seq<string>)
    ensures |ss| == |types| && forall i :: 0 <= i < |types| ==> ss[i] == EncodedObjectType(types[i])
  {
    if |types| == 0 then [] else [EncodedObjectType(types[0])] + EncodedObjectTypes(types[1..])
  }

  function ObjectTypeNames(types: seq<ObjectType>): (ss: seq<string>)
    ensures |ss| == |types| && forall i :: 0 <= i < |types| ==> ss[i] == ObjectTypeName(types[i])
  {
    if |types| == 0 then [] else [ObjectTypeName(types[0])] + ObjectTypeNames(types[1..])
  }

  /** The "type" parameter: the encoded types joined by commas, with every quote removed. */
  function TypeParam(types: seq<ObjectType>): (s: string)
    ensures '"' !in s
  {
    ReplaceRemoves(Join(EncodedObjectTypes(types), ","), '"', "");
    Replace(Join(EncodedObjectTypes(types), ","), '"', "")
  }

  /** Unquoting a quoted name followed by a comma and more text keeps the name and the comma. */
  lemma UnquoteHead(n: string, rest: string)
    requires '"' !in n
    ensures Replace(Quoted(n) + ("," + rest), '"', "") == n + ("," + Replace(rest, '"', ""))
  {
    ReplaceConcat(Quoted(n), "," + rest, '"', "");
    UnquoteQuoted(n);
    ReplaceConcat(",", rest, '"', "");
    ReplaceAbsent(",", '"', "");
  }

  /** If unquoting the join of the tail gives the tail's names, it does so for the whole. */
  lemma UnquoteJoinStep(encoded: seq<string>, names: seq<string>)
    requires |encoded| == |names| > 1
    requires encoded[0] == Quoted(names[0]) && '"' !in names[0]
    requires Replace(Join(encoded[1..], ","), '"', "") == Join(names[1..], ",")
    ensures Replace(Join(encoded, ","), '"', "") == Join(names, ",")
  {
    JoinCons(encoded, ",");
    JoinCons(names, ",");
    UnquoteHead(names[0], Join(encoded[1..], ","));
  }

  /** Removing the quotes leaves the bare names, comma-joined. */
  lemma {:induction false} TypeParamIsJoinOfNames(types: seq<ObjectType>)
    ensures TypeParam(types) == Join(ObjectTypeNames(types), ",")
  {
    if |types| == 1 {
      UnquoteQuoted(ObjectTypeName(types[0]));
    } else if |types| > 1 {
      var encoded := EncodedObjectTypes(types);
      var names := ObjectTypeNames(types);
      assert encoded[1..] == EncodedObjectTypes(types[1..]);
      assert names[1..] == ObjectTypeNames(types[1..]);
      TypeParamIsJoinOfNames(types[1..]);
      UnquoteJoinStep(encoded, names);
    }
  }

  /** The server splits the "type" parameter at its commas back into the requested types' names. */
  lemma TypeParamSplitsBack(types: seq<ObjectType>)
    requires |types| >= 1
    ensures Split(TypeParam(types), ',') == ObjectTypeNames(types)
  {
    TypeParamIsJoinOfNames(types);
    SplitJoin(ObjectTypeNames(types), ',');
  }

  lemma TypeParamSplitsBackWhenGiven(types: seq<ObjectType>)
    ensures |types| >= 1 ==> Split(TypeParam(types), ',') == ObjectTypeNames(types)
  {
    if |types| >= 1 {
      TypeParamSplitsBack(types);
    }
  }

  /** The "limit" parameter: the limit when it lies in 1..50, otherwise "20". */
  function LimitParam(limit: Int32): (s: string)
    ensures ParseInt(s) == Some(if 1 <= limit <= 50 then limit else 20)
  {
    ParseIntLiteral(limit);
    ParseIntLiteral(20);
    assert IntLiteral(20) == "20";
    if 1 <= limit <= 50 then IntLiteral(limit) else "20"
  }

  /** The "offset" parameter as written: `offset + limit` is an `Int` sum, which wraps. */
  function OffsetParamAsWritten(offset: Int32, limit: Int32): (s: string)
    ensures ParseInt(s) == Some(if offset >= 0 && Wrap32(offset + limit) <= 1000 then offset else 0)
  {
    ParseIntLiteral(offset);
    ParseIntLiteral(0);
    assert IntLiteral(0) == "0";
    if Wrap32(offset + limit) <= 1000 && offset >= 0 then IntLiteral(offset) else "0"
  }

  /**
   * The "offset" parameter as intended: the offset when it is non-negative and, with the
   * unclamped limit, reaches no further than 1000; otherwise "0".
   */
  function OffsetParam(offset: Int32, limit: Int32): (s: string)
    ensures ParseInt(s) == Some(if offset >= 0 && offset + limit <= 1000 then offset else 0)
  {
    ParseIntLiteral(offset);
    ParseIntLiteral(0);
    assert IntLiteral(0) == "0";
    if offset + limit <= 1000 && offset >= 0 then IntLiteral(offset) else "0"
  }

  /** Both agree whenever the sum fits an `Int`... */
  lemma OffsetParamsAgreeWithoutOverflow(offset: Int32, limit: Int32)
    requires InInt32Range(offset + limit)
    ensures OffsetParamAsWritten(offset, limit) == OffsetParam(offset, limit)
  {
  }

  /** ...but the largest offset with limit 1 overflows the sum and is sent though it exceeds 1000. */
  lemma OffsetOverflowPassesTheCheck()
    ensures OffsetParamAsWritten(0x7fff_ffff, 1) == IntLiteral(0x7fff_ffff)
    ensures OffsetParam(0x7fff_ffff, 1) == "0"
  {
    assert Wrap32(0x7fff_ffff + 1) == -0x8000_0000 by {
      assert (0x7fff_ffff + 1 + 0x8000_0000) % 0x1_0000_0000 == 0;
    }
  }

  /** `Boolean.toString()`. */
  function BoolString(b: bool): string {
    if b then "true" else "false"
  }

  /**
   * The query parameters of `searchItem`, in the order they are added, with the corrected offset
   * check: the query, the type names that split back at the commas, and the clamped limit and
   * offset that read back as numbers.
   */
  function SearchParameters(q: string, types: seq<ObjectType>, limit: Int32, offset: Int32,
                            includeExternal: Option<bool>, market: Option<string>): (r: Entries)
    ensures 4 <= |r| <= 6 && r[0] == ("q", q)
    ensures r[1].0 == "type" && (|types| >= 1 ==> Split(r[1].1, ',') == ObjectTypeNames(types))
    ensures r[2].0 == "limit" && ParseInt(r[2].1) == Some(if 1 <= limit <= 50 then limit else 20)
    ensures r[3].0 == "offset" && ParseInt(r[3].1) == Some(if offset >= 0 && offset + limit <= 1000 then offset else 0)
  {
    TypeParamSplitsBackWhenGiven(types);
    [("q", q), ("type", TypeParam(types)), ("limit", LimitParam(limit)), ("offset", OffsetParam(offset, limit))]
    + (if includeExternal.Some? then [("include_external", BoolString(includeExternal.value))] else [])
    + (if market.Some? then [("market", market.value)] else [])
  }

  /** `q`, `type`, `limit` and `offset` always come first; the two optional ones only when given. */
  lemma SearchParametersShape(q: string, types: seq<ObjectType>, limit: Int32, offset: Int32,
                              includeExternal: Option<bool>, market: Option<string>)
    ensures Keys(SearchParameters(q, types, limit, offset, includeExternal, market))
         == ["q", "type", "limit", "offset"]
            + (if includeExternal.Some? then ["include_external"] else [])
            + (if market.Some? then ["market"] else [])
  {
    var external := if includeExternal.Some? then Some(BoolString(includeExternal.value)) else None;
    assert SearchParameters(q, types, limit, offset, includeExternal, market)
        == [("q", q), ("type", TypeParam(types)), ("limit", LimitParam(limit)), ("offset", OffsetParam(offset, limit))]
           + (if external.Some? then [("include_external", external.value)] else [])
           + (if market.Some? then [("market", market.value)] else []);
    KeysOfSearchEntries(q, TypeParam(types), LimitParam(limit), OffsetParam(offset, limit), external, market);
  }

  lemma KeysOfSearchEntries(q: string, t: string, l: string, o: string, external: Option<string>, market: Option<string>)
    ensures Keys([("q", q), ("type", t), ("limit", l), ("offset", o)]
                 + (if external.Some? then [("include_external", external.value)] else [])
                 + (if market.Some? then [("market", market.value)] else []))
         == ["q", "type", "limit", "offset"]
            + (if external.Some? then ["include_external"] else [])
            + (if market.Some? then ["market"] else [])
  {
    var fixed := [("q", q), ("type", t), ("limit", l), ("offset", o)];
    var optional := if external.Some? then [("include_external", external.value)] else [];
    var country := if market.Some? then [("market", market.value)] else [];
    KeysConcat(fixed + optional, country);
    KeysConcat(fixed, optional);
    assert Keys(fixed) == ["q", "type", "limit", "offset"];
  }

  /** "include_external" and "market" are sent exactly when given. */
  lemma OptionalSearchParameters(q: string, types: seq<ObjectType>, limit: Int32, offset: Int32,
                                 includeExternal: Option<bool>, market: Option<string>)
    ensures var ks := Keys(SearchParameters(q, types, limit, offset, includeExternal, market));
      && ks[..4] == ["q", "type", "limit", "offset"]
      && ("include_external" in ks <==> includeExternal.Some?)
      && ("market" in ks <==> market.Some?)
  {
    SearchParametersShape(q, types, limit, offset, includeExternal, market);
    OptionalKeys(includeExternal.Some?, market.Some?);
  }

  lemma OptionalKeys(external: bool, country: bool)
    ensures var ks := ["q", "type", "limit", "offset"]
                      + (if external then ["include_external"] else [])
                      + (if country then ["market"] else []);
      && ks[..4] == ["q", "type", "limit", "offset"]
      && ("include_external" in ks <==> external)
      && ("market" in ks <==> country)
  {
    var fixed: seq<string> := ["q", "type", "limit", "offset"];
    var ks := fixed + (if external then ["include_external"] else []) + (if country then ["market"] else []);
    assert ks[..4] == fixed;
    assert "include_external" !in fixed && "market" !in fixed;
  }

  /**
   * `searchItem`: builds the query from the caller's configured builder, then adds its
   * parameters step by step. It is sent with authentication and needs no scope.
   */
  method SearchItem(baseUrl: string, types: seq<ObjectType>, limit: Int32, offset: Int32,
                    includeExternal: Option<bool>, market: Option<string>, queue: SearchQueueBuilder)
    returns (call: Call)
    ensures call.kind == Typed && call.requiresScope.None?
    ensures call.request == Request(Get, baseUrl + "search",
      SearchParameters(queue.Build().value, types, limit, offset, includeExternal, market), [], None)
  {
    var searchQueue := queue.Build();
    var entries := SearchParameters(searchQueue.value, types, limit, offset, includeExternal, market);
    var request := SearchRequest(baseUrl + "search", entries);
    call := Call(Typed, None, request);
  }

  /** The builder block of `searchItem`: a GET whose query parameters are added one by one. */
  method SearchRequest(url: string, entries: Entries) returns (request: Request)
    ensures request == Request(Get, url, entries, [], None)
  {
    var builder := new RequestBuilder();
    builder.SetMethod(Get);
    builder.SetUrl(url);
    builder.AddParameters(entries);
    request := builder.Build();
  }
}
