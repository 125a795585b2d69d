/**
 * Lookup and search over fetched collections (internal/helpers/securities.go):
 * first-match find, priority find across three collections, the batch map and
 * the case-insensitive symbol search.
 */
module Helpers {
  import opened Wrappers
  import opened Types
  import opened Entities

  // ---------------------------------------------------------------------------
  // Exact-symbol find

  /** The lowest index whose record has exactly this symbol. */
  function FirstIndex(symbol: string, coll: seq<Record>): (r: Option<nat>)
    ensures r.Some? ==> r.value < |coll| && coll[r.value].symbol == symbol
    ensures r.Some? ==> forall j :: 0 <= j < r.value ==> coll[j].symbol != symbol
    ensures r.None? ==> forall j :: 0 <= j < |coll| ==> coll[j].symbol != symbol
    decreases |coll|
  {
    if |coll| == 0 then None
    else if coll[0].symbol == symbol then Some(0)
    else match FirstIndex(symbol, coll[1..])
      case None => None
      case Some(k) => Some(k + 1)
  }

  /** The "<kind> <symbol> not found" error of the Find functions. */
  function NotFound(kind: string, symbol: string): Error {
    Text(kind + " " + symbol + " not found")
  }

  /** Find in one collection: the first record with the symbol, or NotFound. */
  function FindIn(kind: string, symbol: string, coll: seq<Record>): (r: Result<Record, Error>)
    ensures r.Success? <==> exists i :: 0 <= i < |coll| && coll[i].symbol == symbol
    ensures r.Success? ==> r.value.symbol == symbol
    ensures r.Success? ==> exists i :: 0 <= i < |coll| && coll[i] == r.value && forall j :: 0 <= j < i ==> coll[j].symbol != symbol
    ensures r.Failure? ==> r.error == NotFound(kind, symbol)
  {
    match FirstIndex(symbol, coll)
    case Some(i) => Success(coll[i])
    case None => Failure(NotFound(kind, symbol))
  }

  /** The index loop with early return shared by every Find function. */
  method IndexOfSymbol(symbol: string, coll: seq<Record>) returns (r: Option<nat>)
    ensures r == FirstIndex(symbol, coll)
  {
    for i := 0 to |coll|
      invariant forall j :: 0 <= j < i ==> coll[j].symbol != symbol
    {
      if coll[i].symbol == symbol {
        return Some(i);
      }
    }
    return None;
  }

  method FindSecurityInCollection(symbol: string, securities: seq<Security>) returns (r: Result<Security, Error>)
    ensures r == FindIn("security", symbol, securities)
  {
    var i := IndexOfSymbol(symbol, securities);
    if i.Some? {
      return Success(securities[i.value]);
    }
    return Failure(NotFound("security", symbol));
  }

  method FindOptionBySymbol(symbol: string, options: seq<Record>) returns (r: Result<Record, Error>)
    ensures r == FindIn("option", symbol, options)
  {
    var i := IndexOfSymbol(symbol, options);
    if i.Some? {
      return Success(options[i.value]);
    }
    return Failure(NotFound("option", symbol));
  }

  method FindFutureBySymbol(symbol: string, futures: seq<Record>) returns (r: Result<Record, Error>)
    ensures r == FindIn("future", symbol, futures)
  {
    var i := IndexOfSymbol(symbol, futures);
    if i.Some? {
      return Success(futures[i.value]);
    }
    return Failure(NotFound("future", symbol));
  }

  // ---------------------------------------------------------------------------
  // Priority find across three collections

  /** Search a, then b, then c; the first collection holding the symbol decides. */
  function FindFirstOf(kind: string, symbol: string, a: seq<Record>, b: seq<Record>, c: seq<Record>): Result<Record, Error> {
    match FirstIndex(symbol, a)
    case Some(i) => Success(a[i])
    case None =>
      match FirstIndex(symbol, b)
      case Some(i) => Success(b[i])
      case None =>
        match FirstIndex(symbol, c)
        case Some(i) => Success(c[i])
        case None => Failure(NotFound(kind, symbol))
  }

  /** The first match in a concatenation is the first match in its left part, if any. */
  lemma {:induction false} FirstIndexAppend(symbol: string, a: seq<Record>, b: seq<Record>)
    ensures FirstIndex(symbol, a + b) ==
              match FirstIndex(symbol, a)
              case Some(i) => Some(i)
              case None =>
                match FirstIndex(symbol, b)
                case Some(j) => Some(|a| + j)
                case None => None
    decreases |a|
  {
    if |a| > 0 {
      assert (a + b)[1..] == a[1..] + b;
      FirstIndexAppend(symbol, a[1..], b);
    } else {
      assert a + b == b;
    }
  }

  /**
   * Searching three collections in priority order is searching their
   * concatenation: a record of b is found only if no record of a has the
   * symbol, one of c only if neither a nor b has it.
   */
  lemma FindFirstOfIsFindInConcat(kind: string, symbol: string, a: seq<Record>, b: seq<Record>, c: seq<Record>)
    ensures FindFirstOf(kind, symbol, a, b, c) == FindIn(kind, symbol, a + b + c)
  {
    FirstIndexAppend(symbol, a, b);
    FirstIndexAppend(symbol, a + b, c);
    var all := a + b + c;
    match FirstIndex(symbol, a)
    case Some(i) =>
      assert all[i] == a[i];
    case None =>
      match FirstIndex(symbol, b)
      case Some(j) =>
        assert all[|a| + j] == b[j];
      case None =>
        match FirstIndex(symbol, c)
        case Some(k) =>
          assert all[|a| + |b| + k] == c[k];
        case None =>
  }

  /** A symbol present in the first collection is always answered from it. */
  lemma FirstCollectionWins(kind: string, symbol: string, a: seq<Record>, b: seq<Record>, c: seq<Record>, i: nat)
    requires i < |a| && a[i].symbol == symbol
    ensures FindFirstOf(kind, symbol, a, b, c).Success?
    ensures FindFirstOf(kind, symbol, a, b, c).value in a
  {
  }

  method FindSecurityBySymbol(symbol: string, bluechips: seq<Security>, cedears: seq<Security>, galpones: seq<Security>)
    returns (r: Result<Security, Error>)
    ensures r == FindFirstOf("security", symbol, bluechips, cedears, galpones)
  {
    var i := IndexOfSymbol(symbol, bluechips);
    if i.Some? {
      return Success(bluechips[i.value]);
    }
    i := IndexOfSymbol(symbol, cedears);
    if i.Some? {
      return Success(cedears[i.value]);
    }
    i := IndexOfSymbol(symbol, galpones);
    if i.Some? {
      return Success(galpones[i.value]);
    }
    return Failure(NotFound("security", symbol));
  }

  method FindBondBySymbol(symbol: string, bonds: seq<Bond>, shortBonds: seq<Bond>, corporateBonds: seq<Bond>)
    returns (r: Result<Bond, Error>)
    ensures r == FindFirstOf("bond", symbol, bonds, shortBonds, corporateBonds)
  {
    var i := IndexOfSymbol(symbol, bonds);
    if i.Some? {
      return Success(bonds[i.value]);
    }
    i := IndexOfSymbol(symbol, shortBonds);
    if i.Some? {
      return Success(shortBonds[i.value]);
    }
    i := IndexOfSymbol(symbol, corporateBonds);
    if i.Some? {
      return Success(corporateBonds[i.value]);
    }
    return Failure(NotFound("bond", symbol));
  }

  // ---------------------------------------------------------------------------
  // Batch lookup

  /** Some record of the collection carries the symbol. */
  ghost predicate HasSymbol(coll: seq<Record>, s: string) {
    exists i :: 0 <= i < |coll| && coll[i].symbol == s
  }

  /** The highest index whose record carries the symbol, if any. */
  function LastIndex(symbol: string, coll: seq<Record>): (r: Option<nat>)
    ensures r.Some? ==> r.value < |coll| && coll[r.value].symbol == symbol
    ensures r.Some? ==> forall j :: r.value < j < |coll| ==> coll[j].symbol != symbol
    ensures r.None? ==> forall j :: 0 <= j < |coll| ==> coll[j].symbol != symbol
    decreases |coll|
  {
    if |coll| == 0 then None
    else if coll[|coll| - 1].symbol == symbol then Some(|coll| - 1)
    else LastIndex(symbol, coll[..|coll| - 1])
  }

  /** The lookup map of one collection, filled front to back: later entries overwrite earlier ones. */
  function SymbolMap(coll: seq<Record>): map<string, Record>
    decreases |coll|
  {
    if |coll| == 0 then map[]
    else
      var last := coll[|coll| - 1];
      SymbolMap(coll[..|coll| - 1])[last.symbol := last]
  }

  /** A symbol is a key iff some record carries it, and it maps to the LAST such record. */
  lemma {:induction false} SymbolMapEntry(coll: seq<Record>, s: string)
    ensures s in SymbolMap(coll) <==> LastIndex(s, coll).Some?
    ensures s in SymbolMap(coll) ==> SymbolMap(coll)[s] == coll[LastIndex(s, coll).value]
    decreases |coll|
  {
    if |coll| > 0 {
      var init := coll[..|coll| - 1];
      SymbolMapEntry(init, s);
      if coll[|coll| - 1].symbol != s && LastIndex(s, init).Some? {
        assert coll[LastIndex(s, init).value] == init[LastIndex(s, init).value];
      }
    }
  }

  /** Some record carries the symbol iff there is a last one. */
  lemma HasSymbolLastIndex(coll: seq<Record>, s: string)
    ensures HasSymbol(coll, s) <==> LastIndex(s, coll).Some?
  {
    if LastIndex(s, coll).Some? {
      assert coll[LastIndex(s, coll).value].symbol == s;
    }
  }

  /** The batch result for the requested symbols, probing the three lookup maps in order. */
  function Batch(symbols: seq<string>, bm: map<string, Record>, cm: map<string, Record>, gm: map<string, Record>)
    : (r: map<string, Record>)
    ensures forall s :: s in r <==> s in symbols && (s in bm || s in cm || s in gm)
    ensures forall s :: s in r ==> r[s] == (if s in bm then bm[s] else if s in cm then cm[s] else gm[s])
    decreases |symbols|
  {
    if |symbols| == 0 then map[]
    else
      var rest := Batch(symbols[..|symbols| - 1], bm, cm, gm);
      var s := symbols[|symbols| - 1];
      assert symbols == symbols[..|symbols| - 1] + [s];
      if s in bm then rest[s := bm[s]]
      else if s in cm then rest[s := cm[s]]
      else if s in gm then rest[s := gm[s]]
      else rest
  }

  /** One more requested symbol adds at most its own entry. */
  lemma BatchSnoc(symbols: seq<string>, s: string, bm: map<string, Record>, cm: map<string, Record>, gm: map<string, Record>)
    ensures Batch(symbols + [s], bm, cm, gm) ==
              if s in bm then Batch(symbols, bm, cm, gm)[s := bm[s]]
              else if s in cm then Batch(symbols, bm, cm, gm)[s := cm[s]]
              else if s in gm then Batch(symbols, bm, cm, gm)[s := gm[s]]
              else Batch(symbols, bm, cm, gm)
  {
    assert (symbols + [s])[..|symbols|] == symbols;
  }

  function MultipleSecurities(symbols: seq<string>, bluechips: seq<Security>, cedears: seq<Security>, galpones: seq<Security>)
    : map<string, Security>
  {
    Batch(symbols, SymbolMap(bluechips), SymbolMap(cedears), SymbolMap(galpones))
  }

  /** A symbol occurs in the concatenation iff it occurs in one of the parts. */
  lemma HasSymbolConcat(a: seq<Record>, b: seq<Record>, c: seq<Record>, s: string)
    ensures HasSymbol(a + b + c, s) <==> HasSymbol(a, s) || HasSymbol(b, s) || HasSymbol(c, s)
  {
    var all := a + b + c;
    if HasSymbol(all, s) {
      var i :| 0 <= i < |all| && all[i].symbol == s;
      if i < |a| {
        assert a[i].symbol == s;
      } else if i < |a| + |b| {
        assert b[i - |a|].symbol == s;
      } else {
        assert c[i - |a| - |b|].symbol == s;
      }
    }
    if HasSymbol(a, s) {
      var i :| 0 <= i < |a| && a[i].symbol == s;
      assert all[i].symbol == s;
    } else if HasSymbol(b, s) {
      var i :| 0 <= i < |b| && b[i].symbol == s;
      assert all[|a| + i].symbol == s;
    } else if HasSymbol(c, s) {
      var i :| 0 <= i < |c| && c[i].symbol == s;
      assert all[|a| + |b| + i].symbol == s;
    }
  }

  /**
   * A requested symbol is in the batch result iff some collection holds it;
   * unfound symbols are silently left out.
   */
  lemma MultipleSecuritiesKeys(symbols: seq<string>, bluechips: seq<Security>, cedears: seq<Security>, galpones: seq<Security>, s: string)
    ensures s in MultipleSecurities(symbols, bluechips, cedears, galpones) <==>
              s in symbols && HasSymbol(bluechips + cedears + galpones, s)
  {
    SymbolMapEntry(bluechips, s);
    SymbolMapEntry(cedears, s);
    SymbolMapEntry(galpones, s);
    HasSymbolLastIndex(bluechips, s);
    HasSymbolLastIndex(cedears, s);
    HasSymbolLastIndex(galpones, s);
    HasSymbolConcat(bluechips, cedears, galpones, s);
  }

  /**
   * Per symbol a bluechip beats a cedear, which beats a galpone; within the
   * winning collection the last record with the symbol is taken.
   */
  lemma MultipleSecuritiesPriority(symbols: seq<string>, bluechips: seq<Security>, cedears: seq<Security>, galpones: seq<Security>, s: string)
    requires s in MultipleSecurities(symbols, bluechips, cedears, galpones)
    ensures MultipleSecurities(symbols, bluechips, cedears, galpones)[s].symbol == s
    ensures LastIndex(s, bluechips).Some? ==>
              MultipleSecurities(symbols, bluechips, cedears, galpones)[s] == bluechips[LastIndex(s, bluechips).value]
    ensures LastIndex(s, bluechips).None? && LastIndex(s, cedears).Some? ==>
              MultipleSecurities(symbols, bluechips, cedears, galpones)[s] == cedears[LastIndex(s, cedears).value]
    ensures LastIndex(s, bluechips).None? && LastIndex(s, cedears).None? ==>
              LastIndex(s, galpones).Some? &&
              MultipleSecurities(symbols, bluechips, cedears, galpones)[s] == galpones[LastIndex(s, galpones).value]
  {
    SymbolMapEntry(bluechips, s);
    SymbolMapEntry(cedears, s);
    SymbolMapEntry(galpones, s);
  }

  /** The batch map keeps the LAST duplicate of a collection, the single-symbol find the FIRST. */
  lemma DuplicateHandlingDiffers()
    ensures var first := Record("GGAL", [1]);
            var second := Record("GGAL", [2]);
            MultipleSecurities(["GGAL"], [first, second], [], []) == map["GGAL" := second] &&
            FindIn("security", "GGAL", [first, second]) == Success(first)
  {
    var first := Record("GGAL", [1]);
    var second := Record("GGAL", [2]);
    assert [first, second][..1] == [first];
    assert [first][..0] == [];
    assert ["GGAL"][..0] == [];
  }

  /** Fills a lookup map in a loop; a later record overwrites an earlier one with the same symbol. */
  method BuildSymbolMap(coll: seq<Record>) returns (m: map<string, Record>)
    ensures m == SymbolMap(coll)
  {
    m := map[];
    for i := 0 to |coll|
      invariant m == SymbolMap(coll[..i])
    {
      assert coll[..i + 1][..i] == coll[..i];
      m := m[coll[i].symbol := coll[i]];
    }
    assert coll[..|coll|] == coll;
  }

  method GetMultipleSecurities(symbols: seq<string>, bluechips: seq<Security>, cedears: seq<Security>, galpones: seq<Security>)
    returns (results: map<string, Security>)
    ensures results == MultipleSecurities(symbols, bluechips, cedears, galpones)
  {
    results := map[];
    var bluechipMap := BuildSymbolMap(bluechips);
    var cedearMap := BuildSymbolMap(cedears);
    var galponeMap := BuildSymbolMap(galpones);
    for k := 0 to |symbols|
      invariant results == Batch(symbols[..k], bluechipMap, cedearMap, galponeMap)
    {
      var symbol := symbols[k];
      BatchSnoc(symbols[..k], symbol, bluechipMap, cedearMap, galponeMap);
      assert symbols[..k + 1] == symbols[..k] + [symbol];
      if symbol in bluechipMap {
        results := results[symbol := bluechipMap[symbol]];
      } else if symbol in cedearMap {
        results := results[symbol := cedearMap[symbol]];
      } else if symbol in galponeMap {
        results := results[symbol := galponeMap[symbol]];
      }
    }
    assert symbols[..|symbols|] == symbols;
  }

  // ---------------------------------------------------------------------------
  // Case-insensitive substring search

  /** ASCII lower-casing of one byte: only 'A'..'Z' change. */
  function LowerChar(ch: char): char {
    if 'A' <= ch <= 'Z' then (ch as int + 32) as char else ch
  }

  function Lower(s: string): string {
    seq(|s|, i requires 0 <= i < |s| => LowerChar(s[i]))
  }

  lemma LowerIdempotent(s: string)
    ensures Lower(Lower(s)) == Lower(s)
  {
  }

  ghost predicate OccursAt(substr: string, s: string, i: nat) {
    i + |substr| <= |s| && s[i..i + |substr|] == substr
  }

  /** `substr` is a contiguous piece of `s`. */
  ghost predicate Occurs(substr: string, s: string) {
    exists i: nat :: OccursAt(substr, s, i)
  }

  /** The symbol contains the text, ignoring ASCII case. */
  ghost predicate MatchesText(symbol: string, text: string) {
    Occurs(Lower(text), Lower(symbol))
  }

  /** toLower: writes the lower-cased bytes into a fresh buffer. */
  method ToLower(s: string) returns (r: string)
    ensures |r| == |s|
    ensures forall i :: 0 <= i < |s| && 'A' <= s[i] <= 'Z' ==> r[i] == (s[i] as int + 32) as char
    ensures forall i :: 0 <= i < |s| && !('A' <= s[i] <= 'Z') ==> r[i] == s[i]
    ensures r == Lower(s)
  {
    var result := new char[|s|];
    for i := 0 to |s|
      invariant forall k :: 0 <= k < i ==> result[k] == LowerChar(s[k])
    {
      if 'A' <= s[i] <= 'Z' {
        result[i] := (s[i] as int + 32) as char;
      } else {
        result[i] := s[i];
      }
    }
    r := result[..];
  }

  /** simpleContains: try every start position, comparing byte by byte. */
  method SimpleContains(s: string, substr: string) returns (found: bool)
    ensures found == Occurs(substr, s)
  {
    if |substr| == 0 {
      assert OccursAt(substr, s, 0);
      return true;
    }
    if |substr| > |s| {
      return false;
    }
    var i := 0;
    while i <= |s| - |substr|
      invariant 0 <= i <= |s| - |substr| + 1
      invariant forall k: nat :: k < i ==> !OccursAt(substr, s, k)
    {
      var matched := true;
      var j := 0;
      while j < |substr|
        invariant 0 <= j <= |substr|
        invariant matched
        invariant forall m :: 0 <= m < j ==> s[i + m] == substr[m]
      {
        if s[i + j] != substr[j] {
          assert s[i..i + |substr|][j] != substr[j];
          matched := false;
          break;
        }
        j := j + 1;
      }
      if matched {
        assert s[i..i + |substr|] == substr;
        assert OccursAt(substr, s, i);
        return true;
      }
      i := i + 1;
    }
    return false;
  }

  /** stringContains: lower-case both sides, then search. */
  method StringContains(s: string, substr: string) returns (found: bool)
    ensures found == MatchesText(s, substr)
  {
    var sLower := ToLower(s);
    var substrLower := ToLower(substr);
    found := SimpleContains(sLower, substrLower);
  }

  /**
   * contains: the length guard and the equality and empty-text shortcuts
   * change nothing: the result is exactly case-insensitive containment.
   */
  method Contains(s: string, substr: string) returns (found: bool)
    ensures found == MatchesText(s, substr)
    ensures |substr| == 0 ==> found
    ensures |substr| > |s| ==> !found
  {
    if |s| < |substr| {
      if MatchesText(s, substr) {
        OccursNeedsRoom(Lower(substr), Lower(s));
      }
      return false;
    }
    if s == substr || |substr| == 0 {
      assert OccursAt(Lower(substr), Lower(s), 0);
      return true;
    }
    found := StringContains(s, substr);
  }

  lemma OccursNeedsRoom(substr: string, s: string)
    requires Occurs(substr, s)
    ensures |substr| <= |s|
  {
  }

  /** The empty text matches every symbol. */
  lemma EmptyTextMatches(symbol: string)
    ensures MatchesText(symbol, "")
  {
    assert OccursAt(Lower(""), Lower(symbol), 0);
  }

  /** Matching ignores ASCII case on both sides. */
  lemma MatchesTextIgnoresCase(symbol: string, text: string)
    ensures MatchesText(Lower(symbol), text) == MatchesText(symbol, text)
    ensures MatchesText(symbol, Lower(text)) == MatchesText(symbol, text)
  {
    LowerIdempotent(symbol);
    LowerIdempotent(text);
  }

  // ---------------------------------------------------------------------------
  // SearchSecurities

  /** The records of `coll` whose symbol matches, in their original order. */
  ghost function Matching(text: string, coll: seq<Record>): (r: seq<Record>)
    ensures |r| <= |coll|
    decreases |coll|
  {
    if |coll| == 0 then []
    else
      var rest := Matching(text, coll[..|coll| - 1]);
      var x := coll[|coll| - 1];
      if MatchesText(x.symbol, text) then rest + [x] else rest
  }

  /** Exactly the records of the collection whose symbol matches are kept. */
  lemma {:induction false} MatchingMembers(text: string, coll: seq<Record>, x: Record)
    ensures x in Matching(text, coll) <==> x in coll && MatchesText(x.symbol, text)
    decreases |coll|
  {
    if |coll| > 0 {
      var init := coll[..|coll| - 1];
      MatchingMembers(text, init, x);
      assert coll == init + [coll[|coll| - 1]];
    }
  }

  ghost function Search(text: string, bluechips: seq<Security>, cedears: seq<Security>, galpones: seq<Security>): seq<Security> {
    Matching(text, bluechips) + Matching(text, cedears) + Matching(text, galpones)
  }

  /** Filtering distributes over concatenation. */
  lemma {:induction false} MatchingAppend(text: string, a: seq<Record>, b: seq<Record>)
    ensures Matching(text, a + b) == Matching(text, a) + Matching(text, b)
    decreases |b|
  {
    if |b| == 0 {
      assert a + b == a;
    } else {
      var ab := a + b;
      assert ab[..|ab| - 1] == a + b[..|b| - 1];
      MatchingAppend(text, a, b[..|b| - 1]);
    }
  }

  /** The search result is the matching records of bluechips ++ cedears ++ galpones, in that order. */
  lemma SearchIsMatchingOfConcat(text: string, bluechips: seq<Security>, cedears: seq<Security>, galpones: seq<Security>)
    ensures Search(text, bluechips, cedears, galpones) == Matching(text, bluechips + cedears + galpones)
    ensures |Search(text, bluechips, cedears, galpones)| <= |bluechips| + |cedears| + |galpones|
  {
    MatchingAppend(text, bluechips, cedears);
    MatchingAppend(text, bluechips + cedears, galpones);
  }

  /** A collection whose every symbol matches is returned whole. */
  lemma {:induction false} MatchingAll(text: string, coll: seq<Record>)
    requires forall i :: 0 <= i < |coll| ==> MatchesText(coll[i].symbol, text)
    ensures Matching(text, coll) == coll
    decreases |coll|
  {
    if |coll| > 0 {
      MatchingAll(text, coll[..|coll| - 1]);
    }
  }

  /** The empty search text returns every security: bluechips, then cedears, then galpones. */
  lemma EmptySearchReturnsAll(bluechips: seq<Security>, cedears: seq<Security>, galpones: seq<Security>)
    ensures Search("", bluechips, cedears, galpones) == bluechips + cedears + galpones
  {
    var all := bluechips + cedears + galpones;
    forall i | 0 <= i < |all| ensures MatchesText(all[i].symbol, "") {
      EmptyTextMatches(all[i].symbol);
    }
    MatchingAll("", all);
    SearchIsMatchingOfConcat("", bluechips, cedears, galpones);
  }

  /** Searching "aap" finds both "AAPL" and "AAP" among the cedears, in their order. */
  lemma SearchExample()
    ensures var aapl := Record("AAPL", []);
            var aap := Record("AAP", []);
            Search("aap", [], [aapl, aap], []) == [aapl, aap]
  {
    var aapl := Record("AAPL", []);
    var aap := Record("AAP", []);
    assert Lower("aap") == "aap";
    assert Lower("AAPL") == "aapl";
    assert Lower("AAP") == "aap";
    assert "aapl"[0..3] == "aap";
    assert OccursAt("aap", "aapl", 0);
    assert "aap"[0..3] == "aap";
    assert OccursAt("aap", "aap", 0);
    MatchingAll("aap", [aapl, aap]);
  }

  /** "APP" is not a piece of "AAPL" nor of "AAP": searching it over those two finds nothing. */
  lemma SearchNoMatchExample()
    ensures var aapl := Record("AAPL", []);
            var aap := Record("AAP", []);
            Search("APP", [], [aapl, aap], []) == []
  {
    var aapl := Record("AAPL", []);
    var aap := Record("AAP", []);
    assert Lower("APP") == "app";
    assert Lower("AAPL") == "aapl";
    assert Lower("AAP") == "aap";
    forall i: nat ensures !OccursAt("app", "aapl", i) && !OccursAt("app", "aap", i) {
      if i == 0 {
        assert "aapl"[0..3][1] != "app"[1];
        assert "aap"[0..3][1] != "app"[1];
      } else if i == 1 {
        assert "aapl"[1..4][2] != "app"[2];
      }
    }
    assert [aapl, aap][..1] == [aapl];
  }

  /** AppendMatching: one of the three append loops of SearchSecurities. */
  method AppendMatching(results: seq<Record>, text: string, coll: seq<Record>) returns (r: seq<Record>)
    ensures r == results + Matching(text, coll)
  {
    r := results;
    for i := 0 to |coll|
      invariant r == results + Matching(text, coll[..i])
    {
      assert coll[..i + 1][..i] == coll[..i];
      var matches := Contains(coll[i].symbol, text);
      assert Matching(text, coll[..i + 1]) == Matching(text, coll[..i]) + if matches then [coll[i]] else [];
      if matches {
        r := r + [coll[i]];
      }
    }
    assert coll[..|coll|] == coll;
  }

  method SearchSecurities(searchText: string, bluechips: seq<Security>, cedears: seq<Security>, galpones: seq<Security>)
    returns (results: seq<Security>)
    ensures results == Search(searchText, bluechips, cedears, galpones)
  {
    results := [];
    results := AppendMatching(results, searchText, bluechips);
    results := AppendMatching(results, searchText, cedears);
    results := AppendMatching(results, searchText, galpones);
  }
}
