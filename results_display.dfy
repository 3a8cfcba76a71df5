/** The results page: the three analysis cards, one card per celebrity match
    in the order the matches arrive, and the placeholder image a card switches
    to when the celebrity's picture fails to load. */
module ResultsDisplay {
  import opened Wrappers
  import opened I18n
  import opened Types
  import opened JsString
  import RadarChart

  // ----- Translation table (the keys whose values feed a modelled value) -----

  datatype Key = Fortune | Health | Makeup | MatchAngle

  function KeyName(key: Key): string
  {
    match key
    case Fortune => "fortune"
    case Health => "health"
    case Makeup => "makeup"
    case MatchAngle => "matchAngle"
  }

  function Text(lang: Lang, key: Key): string
  {
    match (lang, key)
    case (En, Fortune) => "Fortune"
    case (En, Health) => "Health"
    case (En, Makeup) => "Makeup Suggestion"
    case (En, MatchAngle) => "Match Angle"
    case (Zh, Fortune) => "面相运势"
    case (Zh, Health) => "健康"
    case (Zh, Makeup) => "化妆建议"
    case (Zh, MatchAngle) => "匹配角度"
  }

  /** The page's `t`: every entry of the table is non-empty, so it returns
      the locale's text and never falls back to the key. */
  function T(lang: Lang, key: Key): (r: string)
    ensures r == Text(lang, key) && r != ""
  {
    OrKey(Text(lang, key), KeyName(key))
  }

  // ----- Placeholder initials -----

  /** `pieces.map(n => n[0]).join('')`: the first character of every piece, in
      order; an empty piece yields `undefined`, which `join` renders as nothing. */
  function FirstChars(pieces: seq<string>): (r: string)
    ensures |r| <= |pieces|
  {
    if pieces == [] then ""
    else (if pieces[0] == "" then "" else [pieces[0][0]]) + FirstChars(pieces[1..])
  }

  /** `name.split(' ').map(n => n[0]).join('')`. */
  function Initials(name: string): (r: string)
    ensures |r| <= |Split(name, ' ')|
  {
    FirstChars(Split(name, ' '))
  }

  /** Reference definition: the characters of `s` that begin a word, i.e. that
      are not a space and come first or right after a space. `atStart` says
      whether the position before `s` is such a boundary. */
  function WordStarts(s: string, atStart: bool): (r: string)
    ensures ' ' !in r
    ensures forall i :: 0 <= i < |r| ==> r[i] in s
  {
    if s == [] then ""
    else (if s[0] != ' ' && atStart then [s[0]] else "") + WordStarts(s[1..], s[0] == ' ')
  }

  /** `a` can be obtained from `b` by deleting characters. */
  predicate IsSubsequence(a: string, b: string)
  {
    if b == [] then a == []
    else (a != [] && a[0] == b[0] && IsSubsequence(a[1..], b[1..])) || IsSubsequence(a, b[1..])
  }

  lemma {:induction false} FirstCharsOfSplit(s: string, atStart: bool)
    ensures var pieces := Split(s, ' ');
            FirstChars(if atStart then pieces else pieces[1..]) == WordStarts(s, atStart)
  {
    if s != [] {
      var rest := Split(s[1..], ' ');
      var pieces := Split(s, ' ');
      FirstCharsOfSplit(s[1..], s[0] == ' ');
      if s[0] == ' ' {
        assert pieces == [""] + rest;
        assert pieces[1..] == rest;
      } else {
        assert pieces == [[s[0]] + rest[0]] + rest[1..];
        assert pieces[1..] == rest[1..];
        if atStart {
          assert FirstChars(pieces) == [s[0]] + FirstChars(rest[1..]);
        }
      }
    }
  }

  /** The initials are exactly the word-initial characters of the name, in order. */
  lemma InitialsAreWordStarts(name: string)
    ensures Initials(name) == WordStarts(name, true)
  {
    FirstCharsOfSplit(name, true);
  }

  lemma {:induction false} WordStartsSubsequence(s: string, atStart: bool)
    ensures IsSubsequence(WordStarts(s, atStart), s)
  {
    if s != [] {
      WordStartsSubsequence(s[1..], s[0] == ' ');
      var w := WordStarts(s, atStart);
      if s[0] != ' ' && atStart {
        assert w == [s[0]] + WordStarts(s[1..], false);
        assert w[1..] == WordStarts(s[1..], false);
      } else {
        assert w == WordStarts(s[1..], s[0] == ' ');
      }
    }
  }

  /** The initials are a subsequence of the name, contain no space, and are no
      longer than the number of space-separated pieces. */
  lemma InitialsWithinName(name: string)
    ensures IsSubsequence(Initials(name), name)
    ensures ' ' !in Initials(name)
    ensures |Initials(name)| <= Count(name, ' ') + 1
  {
    InitialsAreWordStarts(name);
    WordStartsSubsequence(name, true);
  }

  /** A name without spaces yields its first character; an empty name yields
      the empty string. */
  lemma InitialsOfOneWord(name: string)
    requires ' ' !in name
    ensures Initials(name) == (if name == "" then "" else [name[0]])
  {
    SplitWithoutSeparator(name, ' ');
    assert FirstChars([name]) == (if name == "" then "" else [name[0]]) + FirstChars([]);
  }

  // ----- Initials as JavaScript computes them: UTF-16 code units -----

  /** The first UTF-16 code unit of a character, which is what `n[0]` returns:
      the character itself inside the Basic Multilingual Plane, and beyond it
      the high surrogate of its pair. */
  function FirstCodeUnit(c: char): (u: int)
    ensures 0 <= u < 0x1_0000
    ensures (c as int) < 0x1_0000 ==> u == c as int
    ensures (c as int) >= 0x1_0000 ==> 0xD800 <= u < 0xDC00
  {
    if (c as int) < 0x1_0000 then c as int
    else 0xD800 + ((c as int) - 0x1_0000) / 0x400
  }

  /** `pieces.map(n => n[0]).join('')` over code units: one unit per non-empty
      piece, the first unit of that piece's first character. */
  function FirstUnits(pieces: seq<string>): (units: seq<int>)
    ensures |units| == |FirstChars(pieces)|
    ensures forall i :: 0 <= i < |units| ==> units[i] == FirstCodeUnit(FirstChars(pieces)[i])
  {
    if pieces == [] then []
    else (if pieces[0] == "" then [] else [FirstCodeUnit(pieces[0][0])]) + FirstUnits(pieces[1..])
  }

  /** The code units of `name.split(' ').map(n => n[0]).join('')`. Splitting on
      a space cuts the same places in characters and in code units, because no
      surrogate is a space. */
  function InitialUnits(name: string): (units: seq<int>)
    ensures |units| == |Initials(name)|
    ensures forall i :: 0 <= i < |units| ==> units[i] == FirstCodeUnit(Initials(name)[i])
  {
    FirstUnits(Split(name, ' '))
  }

  /** For a name inside the Basic Multilingual Plane the code units are exactly
      the initials' characters, so `Initials` is what JavaScript computes. */
  lemma InitialUnitsOfBmpName(name: string)
    requires forall i :: 0 <= i < |name| ==> (name[i] as int) < 0x1_0000
    ensures forall i :: 0 <= i < |InitialUnits(name)| ==> InitialUnits(name)[i] == Initials(name)[i] as int
  {
    InitialsAreWordStarts(name);
    var w := Initials(name);
    forall i | 0 <= i < |w|
      ensures (w[i] as int) < 0x1_0000
    {
      var k :| 0 <= k < |name| && name[k] == w[i];
    }
  }

  /** A word that starts beyond the Basic Multilingual Plane contributes only
      its high surrogate: "\U{1F600} Li" gives the units D83D and "L". */
  lemma InitialUnitsKeepHighSurrogate()
    ensures InitialUnits("\U{1F600} Li") == [0xD83D, 'L' as int]
  {
    var name := "\U{1F600} Li";
    assert name == ['\U{1F600}'] + " Li";
    SplitAtFirst(name, ' ', 1);
    SplitWithoutSeparator("Li", ' ');
    assert Split(name, ' ') == ["\U{1F600}", "Li"];
    assert FirstUnits(["\U{1F600}", "Li"]) == [0xD83D] + FirstUnits(["Li"]);
    assert FirstUnits(["Li"]) == ['L' as int] + FirstUnits([]);
  }

  // ----- The placeholder address -----

  const PlaceholderBase := "https://via.placeholder.com/200/2D3748/FFFFFF?text="

  /** The fallback image address: the placeholder service with the initials
      appended as the text parameter, without any URL encoding. The text is
      the name's word-initial characters: no space, and in the name's order. */
  function PlaceholderUrl(name: string): (url: string)
    ensures StartsWith(url, PlaceholderBase)
    ensures ' ' !in url[|PlaceholderBase|..]
    ensures IsSubsequence(url[|PlaceholderBase|..], name)
    ensures url[|PlaceholderBase|..] == WordStarts(name, true)
  {
    InitialsWithinName(name);
    InitialsAreWordStarts(name);
    PlaceholderBase + Initials(name)
  }

  // ----- The image-error fallback -----

  /** The `<img>` element of one match card, as far as its error handling goes,
      with the handler as written. React attaches `onError` as an event
      listener, while the handler's first statement clears only the element's
      `onerror` property, which React never sets; so the listener stays
      attached and runs on every failed load. */
  class MatchImage {
    const name: string
    var src: string
    /** How many loads the element has started: one for the first `src`, and
        one more each time `src` is assigned. */
    var loads: nat

    ghost predicate Valid()
      reads this
    {
      loads >= 1 && (loads > 1 ==> src == PlaceholderUrl(name))
    }

    /** The element as rendered for a match: loading its own picture. */
    constructor (m: CelebrityMatch)
      ensures Valid()
      ensures name == m.name && src == m.imageUrl && loads == 1
    {
      name := m.name;
      src := m.imageUrl;
      loads := 1;
    }

    /** The browser reports that `src` failed to load. The handler runs, and
        assigning the placeholder address to `src` starts another load, even
        when `src` already held that address. */
    method LoadFailed()
      requires Valid()
      modifies this`src, this`loads
      ensures Valid()
      ensures src == PlaceholderUrl(name)
      ensures loads == old(loads) + 1
    {
      src := PlaceholderUrl(name);
      loads := loads + 1;
    }
  }

  /** Client of the handler as written: while the placeholder keeps failing,
      every failure starts one more load, without bound; after any positive
      number of failures the element shows the placeholder address. */
  method FailingPlaceholderKeepsReloading(m: CelebrityMatch, failures: nat) returns (src: string, loads: nat)
    ensures loads == failures + 1
    ensures src == if failures == 0 then m.imageUrl else PlaceholderUrl(m.name)
  {
    var img := new MatchImage(m);
    var k := 0;
    while k < failures
      invariant 0 <= k <= failures
      invariant img.Valid() && img.name == m.name
      invariant img.loads == k + 1
      invariant img.src == if k == 0 then m.imageUrl else PlaceholderUrl(m.name)
    {
      img.LoadFailed();
      k := k + 1;
    }
    src, loads := img.src, img.loads;
  }

  /** The handler as evidently intended: it replaces `src` once and then stays
      inert, so a failing placeholder ends the attempts. `fellBack` stands for
      whatever guard does this (removing the listener itself, or a flag the
      handler checks). */
  class OneShotMatchImage {
    const name: string
    var src: string
    var fellBack: bool
    /** How many loads the element has started. */
    var loads: nat

    ghost predicate Valid()
      reads this
    {
      && loads == (if fellBack then 2 else 1)
      && (fellBack ==> src == PlaceholderUrl(name))
    }

    constructor (m: CelebrityMatch)
      ensures Valid()
      ensures name == m.name && src == m.imageUrl && !fellBack && loads == 1
    {
      name := m.name;
      src := m.imageUrl;
      fellBack := false;
      loads := 1;
    }

    /** The first failure switches to the placeholder and starts its load;
        any later failure changes nothing. */
    method LoadFailed()
      requires Valid()
      modifies this`src, this`fellBack, this`loads
      ensures Valid()
      ensures fellBack && src == PlaceholderUrl(name)
      ensures old(fellBack) ==> src == old(src) && loads == old(loads)
    {
      if !fellBack {
        fellBack := true;
        src := PlaceholderUrl(name);
        loads := loads + 1;
      }
    }
  }

  /** Client of the corrected handler: whatever the number of failures, at
      most two loads are started, and after the first failure the element
      stays on the placeholder. */
  method FailingPlaceholderStops(m: CelebrityMatch, failures: nat) returns (src: string, loads: nat)
    ensures loads == if failures == 0 then 1 else 2
    ensures src == if failures == 0 then m.imageUrl else PlaceholderUrl(m.name)
  {
    var img := new OneShotMatchImage(m);
    var k := 0;
    while k < failures
      invariant 0 <= k <= failures
      invariant img.Valid() && img.name == m.name
      invariant img.fellBack == (k > 0)
      invariant img.src == if k == 0 then m.imageUrl else PlaceholderUrl(m.name)
    {
      img.LoadFailed();
      k := k + 1;
    }
    src, loads := img.src, img.loads;
  }

  // ----- Cards -----

  /** What one match card shows: the picture (with the name as alternative
      text), the name, the similarity, the localised angle line and the reason. */
  datatype MatchCard = MatchCard(
    imageSrc: string,
    alt: string,
    name: string,
    similarity: real,
    angleLine: string,
    reason: string)

  function CardFor(lang: Lang, m: CelebrityMatch): MatchCard
  {
    MatchCard(m.imageUrl, m.name, m.name, m.similarity, T(lang, MatchAngle) + ": " + m.angle, m.reason)
  }

  /** `celebrityMatches.map(...)`: one card per match, in input order, each
      showing that match's picture, name, similarity, angle and reason. */
  function MatchCards(lang: Lang, ms: seq<CelebrityMatch>): (cards: seq<MatchCard>)
    ensures |cards| == |ms|
    ensures forall i :: 0 <= i < |ms| ==>
              && cards[i].name == ms[i].name
              && cards[i].imageSrc == ms[i].imageUrl
              && cards[i].similarity == ms[i].similarity
              && cards[i].angleLine == Text(lang, MatchAngle) + ": " + ms[i].angle
              && cards[i].reason == ms[i].reason
  {
    if ms == [] then []
    else [CardFor(lang, ms[0])] + MatchCards(lang, ms[1..])
  }

  /** One analysis card: a localised title over the reply's text. */
  datatype AnalysisCard = AnalysisCard(title: string, content: string)

  /** The fortune, health and makeup cards, in that order. */
  function AnalysisCards(lang: Lang, fa: FacialAnalysis): (cards: seq<AnalysisCard>)
    ensures |cards| == 3
    ensures cards[0] == AnalysisCard(Text(lang, Fortune), fa.fortune)
    ensures cards[1] == AnalysisCard(Text(lang, Health), fa.health)
    ensures cards[2] == AnalysisCard(Text(lang, Makeup), fa.makeup)
  {
    [ AnalysisCard(T(lang, Fortune), fa.fortune),
      AnalysisCard(T(lang, Health), fa.health),
      AnalysisCard(T(lang, Makeup), fa.makeup) ]
  }

  /** The chart and the match cards present the same matches in the same
      order: the i-th point plots the i-th card's similarity along its angle. */
  lemma ChartAgreesWithCards(lang: Lang, ms: seq<CelebrityMatch>)
    ensures var points := RadarChart.ChartData(ms);
            var cards := MatchCards(lang, ms);
            && |points| == |cards|
            && forall i :: 0 <= i < |cards| ==>
                 points[i].a == cards[i].similarity
                 && cards[i].angleLine == Text(lang, MatchAngle) + ": " + points[i].subject
  {
  }
}
