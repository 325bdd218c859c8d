/** Metric levels: the bit set, its parser and printers, and the accumulating command-line flag. */
module MetricLevels {
  import opened Common

  type Level = bv32

  datatype Metric = Node | Process | Container | Vm | Pod

  const ALL: Level := 31

  function Mask(m: Metric): Level {
    match m
    case Node => 1
    case Process => 2
    case Container => 4
    case Vm => 8
    case Pod => 16
  }

  /** The five Is...Enabled tests. */
  predicate Has(l: Level, m: Metric) {
    l & Mask(m) != 0
  }

  /** The bits that have a name; a Level may carry others, which every printer drops. */
  function Known(l: Level): Level {
    l & ALL
  }

  function NameOf(m: Metric): string {
    match m
    case Node => "node"
    case Process => "process"
    case Container => "container"
    case Vm => "vm"
    case Pod => "pod"
  }

  function Named(name: string): Option<Metric> {
    if name == "node" then Some(Node)
    else if name == "process" then Some(Process)
    else if name == "container" then Some(Container)
    else if name == "vm" then Some(Vm)
    else if name == "pod" then Some(Pod)
    else None
  }

  // ---- text normalisation --------------------------------------------------

  /** unicode.IsSpace. */
  predicate IsSpace(c: char) {
    || c in "\t\n\r " || c in ['\U{b}', '\U{c}', '\U{85}', '\U{a0}', '\U{1680}']
    || '\U{2000}' <= c <= '\U{200a}'
    || c in ['\U{2028}', '\U{2029}', '\U{202f}', '\U{205f}', '\U{3000}']
  }

  /** unicode.ToLower, as far as it can produce an ASCII letter: the ASCII capitals and
      the two other characters that fold to one. */
  function Lower(c: char): char {
    if 'A' <= c <= 'Z' then c + 32 as char
    else if c == '\U{130}' then 'i'
    else if c == '\U{212a}' then 'k'
    else c
  }

  function TrimLeft(s: string): string {
    if |s| > 0 && IsSpace(s[0]) then TrimLeft(s[1..]) else s
  }

  function TrimRight(s: string): string {
    if |s| > 0 && IsSpace(s[|s| - 1]) then TrimRight(s[..|s| - 1]) else s
  }

  function LowerAll(s: string): (t: string)
    ensures |t| == |s|
  {
    seq(|s|, i requires 0 <= i < |s| => Lower(s[i]))
  }

  function Normal(s: string): string {
    LowerAll(TrimRight(TrimLeft(s)))
  }

  predicate AllSpace(s: string) {
    forall i :: 0 <= i < |s| ==> IsSpace(s[i])
  }

  lemma {:induction false} TrimLeftDropsPadding(pad: string, s: string)
    requires AllSpace(pad)
    ensures TrimLeft(pad + s) == TrimLeft(s)
  {
    if |pad| == 0 {
      assert pad + s == s;
    } else {
      TrimLeftDropsPadding(pad[1..], s);
      assert (pad + s)[1..] == pad[1..] + s;
    }
  }

  lemma {:induction false} TrimRightDropsPadding(s: string, pad: string)
    requires AllSpace(pad)
    ensures TrimRight(s + pad) == TrimRight(s)
  {
    if |pad| == 0 {
      assert s + pad == s;
    } else {
      TrimRightDropsPadding(s, pad[..|pad| - 1]);
      assert (s + pad)[..|s + pad| - 1] == s + pad[..|pad| - 1];
    }
  }

  lemma {:induction false} TrimLeftOfPaddedRight(s: string, pad: string)
    requires AllSpace(pad)
    ensures TrimRight(TrimLeft(s + pad)) == TrimRight(TrimLeft(s))
  {
    if |s| == 0 {
      assert s + pad == pad + "";
      TrimLeftDropsPadding(pad, "");
    } else if IsSpace(s[0]) {
      assert (s + pad)[1..] == s[1..] + pad;
      TrimLeftOfPaddedRight(s[1..], pad);
    } else {
      TrimRightDropsPadding(s, pad);
    }
  }

  /** Same characters up to letter case. */
  predicate CaseVariant(s: string, t: string) {
    LowerAll(s) == LowerAll(t)
  }

  lemma {:induction false} CaseVariantSpaces(s: string, t: string, i: nat)
    requires CaseVariant(s, t) && i < |s|
    ensures |s| == |t| && (IsSpace(s[i]) <==> IsSpace(t[i]))
  {
    assert LowerAll(s)[i] == LowerAll(t)[i];
  }

  lemma {:induction false} TrimLeftKeepsCaseVariant(s: string, t: string)
    requires CaseVariant(s, t)
    ensures CaseVariant(TrimLeft(s), TrimLeft(t))
    decreases |s|
  {
    assert |s| == |LowerAll(s)| == |t|;
    if |s| > 0 {
      CaseVariantSpaces(s, t, 0);
      assert LowerAll(s[1..]) == LowerAll(s)[1..] && LowerAll(t[1..]) == LowerAll(t)[1..];
      TrimLeftKeepsCaseVariant(s[1..], t[1..]);
    }
  }

  lemma {:induction false} TrimRightKeepsCaseVariant(s: string, t: string)
    requires CaseVariant(s, t)
    ensures CaseVariant(TrimRight(s), TrimRight(t))
    decreases |s|
  {
    assert |s| == |LowerAll(s)| == |t|;
    if |s| > 0 {
      var n := |s| - 1;
      CaseVariantSpaces(s, t, n);
      assert LowerAll(s[..n]) == LowerAll(s)[..n] && LowerAll(t[..n]) == LowerAll(t)[..n];
      TrimRightKeepsCaseVariant(s[..n], t[..n]);
    }
  }

  /** Outer white space and letter case do not change what a level name stands for. */
  lemma NormalIgnoresSpaceAndCase(before: string, s: string, t: string, after: string)
    requires AllSpace(before) && AllSpace(after)
    requires CaseVariant(s, t)
    ensures Normal(before + s + after) == Normal(t)
  {
    assert before + s + after == before + (s + after);
    TrimLeftDropsPadding(before, s + after);
    TrimLeftOfPaddedRight(s, after);
    TrimLeftKeepsCaseVariant(s, t);
    TrimRightKeepsCaseVariant(TrimLeft(s), TrimLeft(t));
  }

  const UPPER := "ABCDEFGHIJKLMNOPQRSTUVWXYZ"
  const LOWER := "abcdefghijklmnopqrstuvwxyz"

  /** `c` is the small letter `l`, its capital, or one of the two other characters that fold to it. */
  ghost predicate WritesLetter(c: char, l: char) {
    || c == l
    || (exists k :: 0 <= k < 26 && c == UPPER[k] && l == LOWER[k])
    || (c == '\U{130}' && l == 'i') || (c == '\U{212a}' && l == 'k')
  }

  /** `s` is the word in small letters, letter for letter in whichever case. */
  ghost predicate Spells(s: string, word: string) {
    |s| == |word| && forall i :: 0 <= i < |s| ==> WritesLetter(s[i], word[i])
  }

  lemma LettersInOrder(k: nat)
    requires k < 26
    ensures UPPER[k] == 'A' + k as char && LOWER[k] == 'a' + k as char
  {
  }

  lemma LowerWrites(c: char, l: char)
    requires 'a' <= l <= 'z'
    ensures Lower(c) == l <==> WritesLetter(c, l)
  {
    if 'A' <= c <= 'Z' {
      LettersInOrder((c - 'A') as nat);
    }
    forall k | 0 <= k < 26 ensures UPPER[k] == 'A' + k as char && LOWER[k] == 'a' + k as char {
      LettersInOrder(k);
    }
  }

  predicate IsWord(word: string) {
    |word| > 0 && forall i :: 0 <= i < |word| ==> 'a' <= word[i] <= 'z'
  }

  lemma LowerSpells(s: string, word: string)
    requires IsWord(word)
    ensures LowerAll(s) == word <==> Spells(s, word)
  {
    forall i | 0 <= i < |s| && |s| == |word| ensures Lower(s[i]) == word[i] <==> WritesLetter(s[i], word[i]) {
      LowerWrites(s[i], word[i]);
    }
    if LowerAll(s) == word {
      assert forall i :: 0 <= i < |s| ==> LowerAll(s)[i] == Lower(s[i]);
    }
  }

  lemma {:induction false} TrimLeftDropsSpace(s: string) returns (before: string)
    ensures AllSpace(before) && s == before + TrimLeft(s)
  {
    before := "";
    if |s| > 0 && IsSpace(s[0]) {
      var rest := TrimLeftDropsSpace(s[1..]);
      before := [s[0]] + rest;
    }
  }

  lemma {:induction false} TrimRightDropsSpace(s: string) returns (after: string)
    ensures AllSpace(after) && s == TrimRight(s) + after
  {
    after := "";
    if |s| > 0 && IsSpace(s[|s| - 1]) {
      var rest := TrimRightDropsSpace(s[..|s| - 1]);
      after := rest + [s[|s| - 1]];
    }
  }

  /** The text is the word, in any letter case, with any white space around it. */
  ghost predicate Writes(text: string, word: string) {
    exists before, s, after :: AllSpace(before) && AllSpace(after) && Spells(s, word) && text == before + s + after
  }

  lemma NormalOfWord(word: string)
    requires IsWord(word)
    ensures LowerAll(word) == word && TrimRight(TrimLeft(word)) == word
  {
    assert !IsSpace(word[0]) && !IsSpace(word[|word| - 1]);
  }

  /** Normalising gives a word exactly for the texts that write it. */
  lemma NormalExactlyWhen(text: string, word: string)
    requires IsWord(word)
    ensures Normal(text) == word <==> Writes(text, word)
  {
    if Normal(text) == word {
      var before := TrimLeftDropsSpace(text);
      var after := TrimRightDropsSpace(TrimLeft(text));
      var s := TrimRight(TrimLeft(text));
      LowerSpells(s, word);
      assert text == before + s + after;
    }
    if Writes(text, word) {
      var before, s, after :| AllSpace(before) && AllSpace(after) && Spells(s, word) && text == before + s + after;
      LowerSpells(s, word);
      NormalOfWord(word);
      NormalIgnoresSpaceAndCase(before, s, word, after);
    }
  }

  // ---- parsing -------------------------------------------------------------

  function MetricOf(text: string): Option<Metric> {
    Named(Normal(text))
  }

  function Collect(levels: seq<string>, sofar: Level): Option<Level> {
    if |levels| == 0 then Some(sofar)
    else
      match MetricOf(levels[0])
      case None => None
      case Some(m) => Collect(levels[1..], sofar | Mask(m))
  }

  function Parse(levels: seq<string>): Option<Level> {
    if |levels| == 0 then Some(ALL) else Collect(levels, 0)
  }

  method ParseLevel(levels: seq<string>) returns (parsed: Option<Level>)
    ensures parsed == Parse(levels)
  {
    if |levels| == 0 {
      return Some(ALL);
    }
    var result: Level := 0;
    for i := 0 to |levels|
      invariant Collect(levels, 0) == Collect(levels[i..], result)
    {
      assert levels[i..][1..] == levels[i + 1..];
      var metric := MetricOf(levels[i]);
      if metric.None? {
        return None;
      }
      result := result | Mask(metric.value);
    }
    return Some(result);
  }

  ghost predicate Mentions(levels: seq<string>, m: Metric) {
    exists i :: 0 <= i < |levels| && MetricOf(levels[i]) == Some(m)
  }

  ghost predicate AllNamed(levels: seq<string>) {
    forall i :: 0 <= i < |levels| ==> MetricOf(levels[i]).Some?
  }

  lemma AndOverOr(a: Level, b: Level, mask: Level)
    ensures (a | b) & mask == (a & mask) | (b & mask)
    ensures a | b == 0 <==> a == 0 && b == 0
  {
  }

  lemma MaskTests(b: Metric, m: Metric)
    ensures Has(Mask(b), m) <==> b == m
    ensures Known(Mask(b)) == Mask(b)
  {
  }

  lemma OrTests(a: Level, b: Level, m: Metric)
    ensures Has(a | b, m) <==> Has(a, m) || Has(b, m)
  {
    AndOverOr(a, b, Mask(m));
    AndOverOr(a & Mask(m), b & Mask(m), 0);
  }

  lemma OrKnown(a: Level, b: Level)
    ensures Known(a) == a && Known(b) == b ==> Known(a | b) == a | b
  {
    AndOverOr(a, b, ALL);
  }

  lemma OrHas(a: Level, b: Metric, m: Metric)
    ensures Has(a | Mask(b), m) <==> Has(a, m) || b == m
    ensures Known(a) == a ==> Known(a | Mask(b)) == a | Mask(b)
  {
    MaskTests(b, m);
    OrTests(a, Mask(b), m);
    OrKnown(a, Mask(b));
  }

  /** Two levels made of named bits are equal when the five tests agree on them. */
  lemma SameTests(a: Level, b: Level)
    requires Known(a) == a && Known(b) == b
    requires forall m: Metric :: Has(a, m) <==> Has(b, m)
    ensures a == b
  {
    assert Has(a, Node) <==> Has(b, Node);
    assert Has(a, Process) <==> Has(b, Process);
    assert Has(a, Container) <==> Has(b, Container);
    assert Has(a, Vm) <==> Has(b, Vm);
    assert Has(a, Pod) <==> Has(b, Pod);
  }

  lemma AllNamedCons(levels: seq<string>)
    requires |levels| > 0
    ensures AllNamed(levels) <==> MetricOf(levels[0]).Some? && AllNamed(levels[1..])
  {
    var rest := levels[1..];
    assert forall i :: 0 <= i < |rest| ==> rest[i] == levels[i + 1];
    if MetricOf(levels[0]).Some? && AllNamed(rest) {
      forall i | 0 <= i < |levels| ensures MetricOf(levels[i]).Some? {
        assert i > 0 ==> levels[i] == rest[i - 1];
      }
    }
  }

  lemma MentionsCons(levels: seq<string>, m: Metric)
    requires |levels| > 0
    ensures Mentions(levels, m) <==> MetricOf(levels[0]) == Some(m) || Mentions(levels[1..], m)
  {
    var rest := levels[1..];
    if Mentions(rest, m) {
      var i :| 0 <= i < |rest| && MetricOf(rest[i]) == Some(m);
      assert levels[i + 1] == rest[i];
    }
    if Mentions(levels, m) {
      var i :| 0 <= i < |levels| && MetricOf(levels[i]) == Some(m);
      assert i > 0 ==> rest[i - 1] == levels[i];
    }
  }

  lemma {:induction false} CollectMeaning(levels: seq<string>, sofar: Level, m: Metric)
    requires Known(sofar) == sofar
    ensures Collect(levels, sofar).Some? <==> AllNamed(levels)
    ensures Collect(levels, sofar).Some? ==>
              var l := Collect(levels, sofar).value;
              Known(l) == l && (Has(l, m) <==> Has(sofar, m) || Mentions(levels, m))
  {
    if |levels| > 0 {
      AllNamedCons(levels);
      MentionsCons(levels, m);
      var head := MetricOf(levels[0]);
      if head.Some? {
        OrHas(sofar, head.value, m);
        CollectMeaning(levels[1..], sofar | Mask(head.value), m);
      }
    }
  }

  /** What a successful parse of a non-empty list returns: exactly the levels it names; and
      it succeeds exactly when every entry is a known name. */
  lemma ParseMeaning(levels: seq<string>)
    requires |levels| > 0
    ensures Parse(levels).Some? <==> AllNamed(levels)
    ensures Parse(levels).Some? ==>
              Known(Parse(levels).value) == Parse(levels).value
              && forall m: Metric :: Has(Parse(levels).value, m) <==> Mentions(levels, m)
  {
    assert !Has(0, Node) && !Has(0, Process) && !Has(0, Container) && !Has(0, Vm) && !Has(0, Pod);
    CollectMeaning(levels, 0, Node);
    forall m: Metric | Parse(levels).Some? ensures Has(Parse(levels).value, m) <==> Mentions(levels, m) {
      CollectMeaning(levels, 0, m);
    }
  }

  /** The normalised names that occur in a list. */
  ghost function NamesIn(levels: seq<string>): set<string> {
    set i | 0 <= i < |levels| :: Normal(levels[i])
  }

  lemma NamesInDecide(levels: seq<string>, m: Metric)
    ensures Mentions(levels, m) <==> exists n :: n in NamesIn(levels) && Named(n) == Some(m)
    ensures AllNamed(levels) <==> forall n :: n in NamesIn(levels) ==> Named(n).Some?
  {
    assert forall i :: 0 <= i < |levels| ==> Normal(levels[i]) in NamesIn(levels);
  }

  /** Parsing a non-empty list depends only on which normalised names occur in it: not on
      their order, repetition, letter case or outer space. */
  lemma ParseDependsOnNamesOnly(a: seq<string>, b: seq<string>)
    requires |a| > 0 && |b| > 0
    requires NamesIn(a) == NamesIn(b)
    ensures Parse(a) == Parse(b)
  {
    ParseMeaning(a);
    ParseMeaning(b);
    NamesInDecide(a, Node);
    NamesInDecide(b, Node);
    if Parse(a).Some? {
      forall m: Metric ensures Has(Parse(a).value, m) <==> Has(Parse(b).value, m) {
        NamesInDecide(a, m);
        NamesInDecide(b, m);
      }
      SameTests(Parse(a).value, Parse(b).value);
    }
  }

  // ---- printing ------------------------------------------------------------

  function NameIf(l: Level, m: Metric): seq<string> {
    if Has(l, m) then [NameOf(m)] else []
  }

  function Names(l: Level): seq<string> {
    NameIf(l, Node) + NameIf(l, Process) + NameIf(l, Container) + NameIf(l, Vm) + NameIf(l, Pod)
  }

  datatype Yaml = Scalar(text: string) | Sequence(items: seq<string>)

  function Marshalled(l: Level): Yaml {
    if |Names(l)| == 1 then Scalar(Names(l)[0]) else Sequence(Names(l))
  }

  function Unmarshalled(y: Yaml): Option<Level> {
    match y
    case Scalar(text) => Parse([text])
    case Sequence(items) => Parse(items)
  }

  method AppendIfEnabled(levels: seq<string>, l: Level, m: Metric) returns (extended: seq<string>)
    ensures extended == levels + NameIf(l, m)
  {
    extended := levels;
    if Has(l, m) {
      extended := extended + [NameOf(m)];
    }
  }

  method LevelNames(l: Level) returns (levels: seq<string>)
    ensures levels == Names(l)
  {
    levels := AppendIfEnabled([], l, Node);
    levels := AppendIfEnabled(levels, l, Process);
    levels := AppendIfEnabled(levels, l, Container);
    levels := AppendIfEnabled(levels, l, Vm);
    levels := AppendIfEnabled(levels, l, Pod);
  }

  method String(l: Level) returns (text: string)
    ensures text == Join(Names(l), ",")
  {
    var levels := LevelNames(l);
    text := Join(levels, ",");
  }

  method MarshalYaml(l: Level) returns (y: Yaml)
    ensures y == Marshalled(l)
  {
    var levels := LevelNames(l);
    if |levels| == 1 {
      return Scalar(levels[0]);
    }
    return Sequence(levels);
  }

  lemma MetricOfName(m: Metric)
    ensures MetricOf(NameOf(m)) == Some(m)
    ensures ',' !in NameOf(m)
  {
    NormalOfWord(NameOf(m));
  }

  /** The five levels by name and number. */
  predicate IsLevel(name: string, level: Level) {
    || (name == "node" && level == 1) || (name == "process" && level == 2) || (name == "container" && level == 4)
    || (name == "vm" && level == 8) || (name == "pod" && level == 16)
  }

  lemma OneName(text: string)
    ensures Parse([text]) == if MetricOf(text).Some? then Some(Mask(MetricOf(text).value)) else None
  {
    if MetricOf(text).Some? {
      var zero: Level := 0;
      var m := MetricOf(text).value;
      assert zero | Mask(m) == Mask(m);
      assert [text][1..] == [];
      assert Collect([text], zero) == Collect([text][1..], zero | Mask(m));
    }
  }

  /** One entry parses as a level exactly when it writes that level's name. */
  lemma EntryParsesExactlyWhen(text: string, name: string, level: Level)
    requires IsLevel(name, level)
    ensures Parse([text]) == Some(level) <==> Writes(text, name)
  {
    OneName(text);
    NormalExactlyWhen(text, name);
  }

  lemma NamesMembership(l: Level, name: string)
    ensures name in Names(l) <==> exists m: Metric :: Has(l, m) && name == NameOf(m)
  {
    assert name in Names(l) <==>
      name in NameIf(l, Node) || name in NameIf(l, Process) || name in NameIf(l, Container)
      || name in NameIf(l, Vm) || name in NameIf(l, Pod);
  }

  lemma NamesAreNamed(l: Level)
    ensures AllNamed(Names(l))
    ensures forall i :: 0 <= i < |Names(l)| ==> ',' !in Names(l)[i]
  {
    forall i | 0 <= i < |Names(l)| ensures MetricOf(Names(l)[i]).Some? && ',' !in Names(l)[i] {
      NamesMembership(l, Names(l)[i]);
      var m: Metric :| Has(l, m) && Names(l)[i] == NameOf(m);
      MetricOfName(m);
    }
  }

  lemma NamesMention(l: Level, m: Metric)
    ensures Mentions(Names(l), m) <==> Has(l, m)
  {
    if Mentions(Names(l), m) {
      var i :| 0 <= i < |Names(l)| && MetricOf(Names(l)[i]) == Some(m);
      NamesMembership(l, Names(l)[i]);
      var m': Metric :| Has(l, m') && Names(l)[i] == NameOf(m');
      MetricOfName(m');
    }
    if Has(l, m) {
      NamesMembership(l, NameOf(m));
      var i :| 0 <= i < |Names(l)| && Names(l)[i] == NameOf(m);
      MetricOfName(m);
    }
  }

  lemma KnownTests(l: Level, m: Metric)
    ensures Has(Known(l), m) <==> Has(l, m)
    ensures Known(Known(l)) == Known(l)
    ensures !Has(0, m) && Known(0) == 0
  {
  }

  lemma NamesNonEmpty(l: Level)
    ensures |Names(l)| > 0 <==> Known(l) != 0
  {
    forall m: Metric ensures Has(Known(l), m) <==> Has(l, m) { KnownTests(l, m); }
    forall m: Metric ensures !Has(0, m) { KnownTests(l, m); }
    KnownTests(l, Node);
    if |Names(l)| == 0 {
      forall m: Metric ensures !Has(l, m) {
        if Has(l, m) { NamesMembership(l, NameOf(m)); }
      }
      SameTests(Known(l), 0);
    } else {
      NamesMembership(l, Names(l)[0]);
    }
  }

  lemma ParseOfNames(l: Level)
    requires Known(l) != 0
    ensures Parse(Names(l)) == Some(Known(l))
  {
    NamesNonEmpty(l);
    ParseMeaning(Names(l));
    NamesAreNamed(l);
    KnownTests(l, Node);
    forall m: Metric ensures Has(Parse(Names(l)).value, m) <==> Has(Known(l), m) {
      NamesMention(l, m);
      KnownTests(l, m);
    }
    SameTests(Parse(Names(l)).value, Known(l));
  }

  /** A level survives the YAML round trip exactly when it has a named bit; a level without
      one is read back as all levels. */
  lemma YamlRoundTrip(l: Level)
    ensures Unmarshalled(Marshalled(l)) == Some(Known(l)) <==> Known(l) != 0
    ensures Known(l) == 0 ==> Unmarshalled(Marshalled(l)) == Some(ALL)
  {
    NamesNonEmpty(l);
    if Known(l) != 0 {
      ParseOfNames(l);
      assert |Names(l)| == 1 ==> [Names(l)[0]] == Names(l);
    }
  }

  /** The same for the comma-separated text; a level without a named bit prints as an empty
      text, which no longer parses. */
  lemma TextRoundTrip(l: Level)
    ensures Parse(Split(Join(Names(l), ","), ',')) == Some(Known(l)) <==> Known(l) != 0
    ensures Known(l) == 0 ==> Parse(Split(Join(Names(l), ","), ',')) == None
  {
    NamesNonEmpty(l);
    if Known(l) != 0 {
      ParseOfNames(l);
      NamesAreNamed(l);
      SplitJoin(Names(l), ',');
    } else {
      assert Normal("") == "";
    }
  }

  // ---- the accumulating flag -----------------------------------------------

  function Accumulate(level: Level, parsed: Level): Level {
    (if level == ALL then 0 else level) | parsed
  }

  /** One flag occurrence: the level after it, or None when the text is rejected. */
  function AfterSet(level: Level, value: string): Option<Level> {
    match Parse([value])
    case None => None
    case Some(parsed) => Some(Accumulate(level, parsed))
  }

  class MetricsLevelValue {
    var level: Level

    constructor (target: Level)
      ensures level == target
    {
      level := target;
    }

    method Set(value: string) returns (ok: bool)
      modifies this
      ensures ok <==> AfterSet(old(level), value).Some?
      ensures level == AfterSet(old(level), value).GetOr(old(level))
    {
      var parsed := ParseLevel([value]);
      if parsed.None? {
        return false;
      }
      if level == ALL {
        level := 0;
      }
      level := level | parsed.value;
      return true;
    }
  }

  /** The flag's value after a sequence of accepted occurrences, each giving these bits. */
  function Accumulated(start: Level, bits: seq<Level>): Level {
    if |bits| == 0 then start
    else
      Accumulate(Accumulated(start, bits[..|bits| - 1]), bits[|bits| - 1])
  }

  function Union(bits: seq<Level>): Level {
    if |bits| == 0 then 0 else Union(bits[..|bits| - 1]) | bits[|bits| - 1]
  }

  /** A run of the command line: None when one occurrence is rejected. */
  function AfterSets(start: Level, values: seq<string>): Option<Level> {
    if |values| == 0 then Some(start)
    else
      match AfterSets(start, values[..|values| - 1])
      case None => None
      case Some(level) => AfterSet(level, values[|values| - 1])
  }

  ghost function BitsOf(values: seq<string>): seq<Level>
    requires forall i :: 0 <= i < |values| ==> Parse([values[i]]).Some?
  {
    seq(|values|, i requires 0 <= i < |values| => Parse([values[i]]).value)
  }

  lemma {:induction false} AcceptedRunAccumulates(start: Level, values: seq<string>)
    requires forall i :: 0 <= i < |values| ==> Parse([values[i]]).Some?
    ensures AfterSets(start, values) == Some(Accumulated(start, BitsOf(values)))
  {
    if |values| > 0 {
      var n := |values| - 1;
      AcceptedRunAccumulates(start, values[..n]);
      var bits := BitsOf(values);
      assert bits[..n] == BitsOf(values[..n]);
      assert bits[n] == Parse([values[n]]).value;
    }
  }

  lemma OrFromZero(l: Level)
    ensures 0 | l == l
  {
  }

  /** The last moment before the final occurrence at which the flag stood at all levels. */
  ghost predicate LastReset(start: Level, bits: seq<Level>, at: nat) {
    && at < |bits|
    && Accumulated(start, bits[..at]) == ALL
    && forall k :: at < k < |bits| ==> Accumulated(start, bits[..k]) != ALL
  }

  lemma UnionOfOne(l: Level)
    ensures Union([l]) == l
  {
    assert [l][..0] == [];
    OrFromZero(l);
  }

  lemma {:induction false} FlagIsUnionSinceLastReset(bits: seq<Level>) returns (at: nat)
    requires |bits| > 0
    ensures LastReset(ALL, bits, at)
    ensures Accumulated(ALL, bits) == Union(bits[at..])
  {
    var n := |bits| - 1;
    var shorter := bits[..n];
    if Accumulated(ALL, shorter) == ALL {
      at := n;
      OrFromZero(bits[n]);
      UnionOfOne(bits[n]);
      assert bits[at..] == [bits[n]];
    } else {
      at := FlagIsUnionSinceLastReset(shorter);
      forall k | at < k < |bits| ensures Accumulated(ALL, bits[..k]) != ALL {
        assert bits[..k] == if k < n then shorter[..k] else shorter;
      }
      assert bits[..at] == shorter[..at];
      var tail := bits[at..];
      assert tail[..|tail| - 1] == shorter[at..];
    }
  }

  /** From the default of all levels, a non-empty run of accepted occurrences ends at the
      union of the levels given since the last moment the flag stood at all levels. */
  lemma FlagMeaning(values: seq<string>) returns (at: nat)
    requires |values| > 0
    requires forall i :: 0 <= i < |values| ==> Parse([values[i]]).Some?
    ensures LastReset(ALL, BitsOf(values), at)
    ensures AfterSets(ALL, values) == Some(Union(BitsOf(values)[at..]))
  {
    AcceptedRunAccumulates(ALL, values);
    at := FlagIsUnionSinceLastReset(BitsOf(values));
  }
}
