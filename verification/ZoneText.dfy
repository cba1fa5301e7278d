/** From what the language model extracted to zones the lead really named: mentions with
    typos, and the sanitising of an extraction. */
module ZoneText {
  import opened Common
  import opened Strings
  import opened TextWords
  import opened EditDistance
  import opened PropertySearch

  predicate IsWordChar(c: char) { 'a' <= c <= 'z' || '0' <= c <= '9' }

  predicate IsNotSpace(c: char) { c != ' ' }

  predicate StartsAt(s: string, i: nat, t: string) { i + |t| <= |s| && s[i..i + |t|] == t }

  predicate Contains(s: string, t: string) { exists i :: 0 <= i <= |s| && StartsAt(s, i, t) }

  function MaxTypoDistance(word: string): nat { if |word| <= 5 then 1 else 2 }

  /** Within the typos tolerated for the target, by true edit distance. */
  predicate Near(word: string, target: string) { Cell(word, target) <= MaxTypoDistance(target) }

  predicate HasNear(words: seq<string>, target: string) {
    exists k :: 0 <= k < |words| && Near(words[k], target)
  }

  /** The name occurs in the text as it is, or every word of it has a near word there. */
  predicate Mentions(fold: Folding, text: string, name: string) {
    var turn, target := NormalizeText(fold, text), NormalizeText(fold, name);
    Contains(turn, target) || AllNear(Words(turn, IsWordChar), Words(target, IsNotSpace))
  }

  predicate AllNear(words: seq<string>, targets: seq<string>) {
    forall i :: 0 <= i < |targets| ==> HasNear(words, targets[i])
  }

  method IsNear(word: string, target: string) returns (r: bool)
    ensures r <==> Near(word, target)
  {
    var d := Levenshtein(word, target);
    r := d <= MaxTypoDistance(target);
  }

  method SomeNear(words: seq<string>, target: string) returns (r: bool)
    ensures r <==> HasNear(words, target)
  {
    for j := 0 to |words|
      invariant forall k :: 0 <= k < j ==> !Near(words[k], target)
    {
      var near := IsNear(words[j], target);
      if near { return true; }
    }
    return false;
  }

  // ----- what a mention is, said of the text -----

  predicate LatinOrDigit(c: char) { 'a' <= c <= 'z' || '0' <= c <= '9' }

  predicate NotSpace(c: char) { c != ' ' }

  /** Some shortest edit script between the two is within the typos tolerated: one for a
      word of up to five letters, else two. */
  ghost predicate IsTypoOf(word: string, target: string) {
    exists d :: IsEditDistance(word, target, d) && d <= if |target| <= 5 then 1 else 2
  }

  ghost predicate HasTypoOf(text: string, target: string) {
    exists i: nat, j: nat :: IsRun(text, i, j, LatinOrDigit) && IsTypoOf(text[i..j], target)
  }

  ghost predicate EveryWordHasTypo(text: string, name: string) {
    forall i: nat, j: nat :: IsRun(name, i, j, NotSpace) ==> HasTypoOf(text, name[i..j])
  }

  /** The text goes on with the name somewhere. */
  predicate Occurs(text: string, name: string) { exists i :: 0 <= i <= |text| && text[..i] + name <= text }

  lemma NearIsTypo(word: string, target: string)
    ensures Near(word, target) <==> IsTypoOf(word, target)
  {
    CellIsEditDistance(word, target);
    forall d | IsEditDistance(word, target, d) ensures d == Cell(word, target) {
    }
  }

  lemma SameRuns(s: string, i: nat, j: nat)
    ensures IsRun(s, i, j, IsWordChar) <==> IsRun(s, i, j, LatinOrDigit)
    ensures IsRun(s, i, j, IsNotSpace) <==> IsRun(s, i, j, NotSpace)
  {
  }

  lemma HasNearIsTypo(text: string, target: string)
    ensures HasNear(Words(text, IsWordChar), target) <==> HasTypoOf(text, target)
  {
    var words := Words(text, IsWordChar);
    if HasNear(words, target) {
      var k :| 0 <= k < |words| && Near(words[k], target);
      WordsAreRuns(text, IsWordChar, words[k]);
      var i: nat, j: nat :| IsRun(text, i, j, IsWordChar) && words[k] == text[i..j];
      SameRuns(text, i, j);
      NearIsTypo(words[k], target);
    }
    if HasTypoOf(text, target) {
      var i: nat, j: nat :| IsRun(text, i, j, LatinOrDigit) && IsTypoOf(text[i..j], target);
      SameRuns(text, i, j);
      WordsAreRuns(text, IsWordChar, text[i..j]);
      NearIsTypo(text[i..j], target);
      var k :| 0 <= k < |words| && words[k] == text[i..j];
    }
  }

  lemma AllNearIsTypo(text: string, name: string)
    ensures AllNear(Words(text, IsWordChar), Words(name, IsNotSpace)) <==> EveryWordHasTypo(text, name)
  {
    var words, targets := Words(text, IsWordChar), Words(name, IsNotSpace);
    if AllNear(words, targets) {
      forall i: nat, j: nat | IsRun(name, i, j, NotSpace) ensures HasTypoOf(text, name[i..j]) {
        SameRuns(name, i, j);
        WordsAreRuns(name, IsNotSpace, name[i..j]);
        var k :| 0 <= k < |targets| && targets[k] == name[i..j];
        HasNearIsTypo(text, name[i..j]);
      }
    }
    if EveryWordHasTypo(text, name) {
      forall k | 0 <= k < |targets| ensures HasNear(words, targets[k]) {
        WordsAreRuns(name, IsNotSpace, targets[k]);
        var i: nat, j: nat :| IsRun(name, i, j, IsNotSpace) && targets[k] == name[i..j];
        SameRuns(name, i, j);
        HasNearIsTypo(text, targets[k]);
      }
    }
  }

  /** A name is mentioned exactly when it occurs in the text, both normalised, or for every
      stretch of it between spaces some whole stretch of letters and digits of the text is
      a typo of it. */
  lemma MentionsMeans(fold: Folding, text: string, name: string)
    ensures var turn, target := NormalizeText(fold, text), NormalizeText(fold, name);
      Mentions(fold, text, name) <==> Occurs(turn, target) || EveryWordHasTypo(turn, target)
  {
    var turn, target := NormalizeText(fold, text), NormalizeText(fold, name);
    AllNearIsTypo(turn, target);
    ContainsIsOccurs(turn, target);
  }

  lemma ContainsIsOccurs(text: string, name: string)
    ensures Contains(text, name) <==> Occurs(text, name)
  {
    if i :| 0 <= i <= |text| && StartsAt(text, i, name) {
      assert text == text[..i] + text[i..i + |name|] + text[i + |name|..];
    }
    if i :| 0 <= i <= |text| && text[..i] + name <= text {
      assert text[i..i + |name|] == (text[..i] + name)[i..];
      assert StartsAt(text, i, name);
    }
  }

  /** So a name of one word that does not occur, with no stretch of the text within the
      typos tolerated, is not mentioned: what the model made up is refused. */
  lemma MadeUpIsRefused(fold: Folding, text: string, name: string)
    requires var turn, target := NormalizeText(fold, text), NormalizeText(fold, name);
      target != "" && ' ' !in target && !Occurs(turn, target) && !HasTypoOf(turn, target)
    ensures !Mentions(fold, text, name)
  {
    var turn, target := NormalizeText(fold, text), NormalizeText(fold, name);
    MentionsMeans(fold, text, name);
    assert forall k :: 0 <= k < |target| ==> target[k] in target;
    assert IsRun(target, 0, |target|, NotSpace) && target[0..|target|] == target;
  }

  /** The matcher run word by word, each distance taken from the table. */
  method TextMentionsNeighborhood(fold: Folding, text: string, name: string) returns (r: bool)
    ensures r <==> Mentions(fold, text, name)
    ensures var turn, target := NormalizeText(fold, text), NormalizeText(fold, name);
      r <==> Occurs(turn, target) || EveryWordHasTypo(turn, target)
  {
    MentionsMeans(fold, text, name);
    var turn, target := NormalizeText(fold, text), NormalizeText(fold, name);
    if Contains(turn, target) { return true; }
    var turnWords, targetWords := Words(turn, IsWordChar), Words(target, IsNotSpace);
    for i := 0 to |targetWords|
      invariant forall k :: 0 <= k < i ==> HasNear(turnWords, targetWords[k])
    {
      var near := SomeNear(turnWords, targetWords[i]);
      if !near { return false; }
    }
    return true;
  }

  // ----- zones -----

  /** Colloquial name to canonical one, both normalised. */
  type Aliases = map<string, string>

  function NormalizeNeighborhood(fold: Folding, aliases: Aliases, raw: string): string {
    var n := NormalizeText(fold, raw);
    if n in aliases then aliases[n] else n
  }

  // ----- extraction -----

  datatype Intent =
    | ProvideInfo | AskQuestion | ShowInterest | ChangeFilters | ScheduleVisit
    | ReferencesSeenListing | OffTopic | OtherIntent

  datatype Timeline = Immediate | OneToThreeMonths | ThreeToSixMonths | Exploring
  datatype Guarantee = OwnProperty | Surety | PaySlip | NoGuarantee | UnsureGuarantee
  datatype Payment = Cash | Credit | Mixed | UnsurePayment

  /** What the model returned. Answers to commercial questions are free text here. */
  datatype RawExtraction = RawExtraction(
    intent: Intent, operation: Option<Operation>, neighborhoods: seq<string>, maxPrice: Option<real>,
    currency: Option<string>, minRooms: Option<int>, wantsGarage: Option<bool>, wantsPetsAllowed: Option<bool>,
    roomsInferred: bool, priceFlexible: bool, extraRequirements: Option<string>,
    interestedPropertyIndex: Option<nat>, name: Option<string>, timeline: Option<string>,
    guarantee: Option<string>, paymentMethod: Option<string>, hasPropertyToSell: Option<bool>)

  datatype Extraction = Extraction(
    intent: Intent, operation: Option<Operation>, neighborhoods: seq<string>, maxPrice: Option<real>,
    currency: Option<string>, minRooms: Option<int>, wantsGarage: Option<bool>, wantsPetsAllowed: Option<bool>,
    roomsInferred: bool, priceFlexible: bool, extraRequirements: Option<string>,
    interestedPropertyIndex: Option<nat>, name: Option<string>, timeline: Option<Timeline>,
    guarantee: Option<Guarantee>, paymentMethod: Option<Payment>, hasPropertyToSell: Option<bool>)

  const MAX_ROOMS := 10
  const MIN_NAME_LENGTH := 2
  const MAX_NAME_LENGTH := 40

  /** How the model's words are read: the folding, the zone names, the words never taken
      for a name, how a name is written, and the closed sets of answers. */
  datatype Lexicon = Lexicon(
    fold: Folding, aliases: Aliases, known: set<string>, notNames: set<string>, capitalize: string -> string,
    timelineOf: string -> Option<Timeline>, guaranteeOf: string -> Option<Guarantee>, paymentOf: string -> Option<Payment>)

  function SanitizeName(lex: Lexicon, raw: Option<string>, text: string): Option<string> {
    if raw.None? || raw.value == "" then None
    else
      var t := Trim(raw.value);
      if |t| < MIN_NAME_LENGTH || |t| > MAX_NAME_LENGTH then None
      else if NormalizeText(lex.fold, t) in lex.notNames then None
      else if NormalizeNeighborhood(lex.fold, lex.aliases, t) in lex.known then None
      else if !Mentions(lex.fold, text, t) then None
      else Some(lex.capitalize(t))
  }

  /** The names the text mentions, in canonical form, without empty ones. */
  function CanonicalNames(lex: Lexicon, names: seq<string>, text: string): seq<string> {
    if names == [] then []
    else
      var rest, n := names[..|names| - 1], names[|names| - 1];
      var z := NormalizeNeighborhood(lex.fold, lex.aliases, n);
      CanonicalNames(lex, rest, text) + if Mentions(lex.fold, text, n) && z != "" then [z] else []
  }

  function SanitizeZones(lex: Lexicon, names: seq<string>, text: string): seq<string> {
    Unique(CanonicalNames(lex, names, text))
  }

  function Closed<T>(raw: Option<string>, read: string -> Option<T>): Option<T> {
    if raw.None? || raw.value == "" then None else read(Trim(raw.value))
  }

  function Sanitize(lex: Lexicon, raw: RawExtraction, text: string): Extraction {
    Extraction(
      raw.intent, raw.operation, SanitizeZones(lex, raw.neighborhoods, text),
      if raw.maxPrice.Some? && raw.maxPrice.value > 0.0 then raw.maxPrice else None,
      raw.currency,
      if raw.minRooms.Some? && 1 <= raw.minRooms.value <= MAX_ROOMS then raw.minRooms else None,
      raw.wantsGarage, raw.wantsPetsAllowed, raw.roomsInferred, raw.priceFlexible,
      if raw.extraRequirements.Some? && Trim(raw.extraRequirements.value) != ""
      then Some(Trim(raw.extraRequirements.value)) else None,
      raw.interestedPropertyIndex, SanitizeName(lex, raw.name, text),
      Closed(raw.timeline, lex.timelineOf), Closed(raw.guarantee, lex.guaranteeOf),
      Closed(raw.paymentMethod, lex.paymentOf), raw.hasPropertyToSell)
  }

  /** `z` is what the alias table gives for the normalised name, or else that itself. */
  predicate IsCanonical(lex: Lexicon, name: string, z: string) {
    var n := NormalizeText(lex.fold, name);
    (n in lex.aliases ==> z == lex.aliases[n]) && (n !in lex.aliases ==> z == n)
  }

  /** `z` is the canonical form of a name this text mentions. */
  ghost predicate SaidIn(lex: Lexicon, text: string, z: string) {
    exists n :: Mentions(lex.fold, text, n) && IsCanonical(lex, n, z)
  }

  /** `z` is the canonical form of a name in the list that this text mentions. */
  ghost predicate ListedAndSaid(lex: Lexicon, names: seq<string>, text: string, z: string) {
    exists n :: n in names && Mentions(lex.fold, text, n) && IsCanonical(lex, n, z)
  }

  lemma {:induction false} CanonicalNamesAreSaid(lex: Lexicon, names: seq<string>, text: string)
    ensures forall z :: z in CanonicalNames(lex, names, text) <==> z != "" && ListedAndSaid(lex, names, text, z)
    decreases |names|
  {
    if names != [] {
      var rest, n := names[..|names| - 1], names[|names| - 1];
      CanonicalNamesAreSaid(lex, rest, text);
      assert names == rest + [n];
      forall z
        ensures ListedAndSaid(lex, names, text, z) <==>
          (ListedAndSaid(lex, rest, text, z)
           || (Mentions(lex.fold, text, n) && z == NormalizeNeighborhood(lex.fold, lex.aliases, n)))
      {
      }
    }
  }

  /** Of the zones the model lists, exactly those whose name the text mentions are kept,
      in canonical form and once each. */
  lemma SanitizedZones(lex: Lexicon, names: seq<string>, text: string)
    ensures Distinct(SanitizeZones(lex, names, text))
    ensures forall z :: z in SanitizeZones(lex, names, text) <==> z != "" && ListedAndSaid(lex, names, text, z)
  {
    CanonicalNamesAreSaid(lex, names, text);
    UniqueIsDistinct(CanonicalNames(lex, names, text));
  }

  /** What else of the model's answer is believed: a budget above zero, one to ten rooms,
      and a name of two to forty characters that the text mentions and that is neither a
      zone nor one of the words never taken for a name. What passes is kept as it is. */
  lemma SanitizedIsSane(lex: Lexicon, raw: RawExtraction, text: string)
    ensures var e := Sanitize(lex, raw, text);
      && (if raw.maxPrice.Some? && raw.maxPrice.value > 0.0 then e.maxPrice == raw.maxPrice else e.maxPrice.None?)
      && (if raw.minRooms.Some? && 1 <= raw.minRooms.value <= 10 then e.minRooms == raw.minRooms else e.minRooms.None?)
      && e.operation == raw.operation && e.currency == raw.currency && e.intent == raw.intent
      && e.wantsGarage == raw.wantsGarage && e.wantsPetsAllowed == raw.wantsPetsAllowed
      && e.interestedPropertyIndex == raw.interestedPropertyIndex
    ensures var e := Sanitize(lex, raw, text);
      e.name.Some? <==>
        && raw.name.Some? && 2 <= |Trim(raw.name.value)| <= 40 && Mentions(lex.fold, text, Trim(raw.name.value))
        && NormalizeText(lex.fold, Trim(raw.name.value)) !in lex.notNames
        && !(exists z :: z in lex.known && IsCanonical(lex, Trim(raw.name.value), z))
    ensures var e := Sanitize(lex, raw, text); e.name.Some? ==> e.name == Some(lex.capitalize(Trim(raw.name.value)))
  {
    assert Trim("") == "";
    if raw.name.Some? {
      var t := Trim(raw.name.value);
      assert IsCanonical(lex, t, NormalizeNeighborhood(lex.fold, lex.aliases, t));
      assert forall z :: IsCanonical(lex, t, z) ==> z == NormalizeNeighborhood(lex.fold, lex.aliases, t);
    }
  }
}
