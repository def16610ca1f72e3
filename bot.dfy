/**
 * The Telegram front end: the per-user registration dialogue (a step and a draft
 * per user), the parsing of its answers, the enforce buttons' callback data and
 * the enforce action. Telegram transport and the Markdown of the replies are not
 * modelled; a reply is named by what it reports.
 */
module Bot {
  import opened Domain
  import opened JsText
  import opened Enforcement
  import opened Orchestrator

  // ---------------------------------------------------------------- the dialogue

  /** The session states, in the order the dialogue visits them. */
  datatype Step =
    | AwaitingName | AwaitingDescription | AwaitingCategory | AwaitingCreator
    | AwaitingMedia | AwaitingTags | AwaitingLicense | AwaitingConfirmation

  /** The position of a step in the dialogue. */
  function Position(step: Step): nat {
    match step
    case AwaitingName => 0
    case AwaitingDescription => 1
    case AwaitingCategory => 2
    case AwaitingCreator => 3
    case AwaitingMedia => 4
    case AwaitingTags => 5
    case AwaitingLicense => 6
    case AwaitingConfirmation => 7
  }

  /** The step after a given one (the confirmation step has none and is its own). */
  function NextStep(step: Step): (next: Step)
    ensures step != AwaitingConfirmation ==> Position(next) == Position(step) + 1
  {
    match step
    case AwaitingName => AwaitingDescription
    case AwaitingDescription => AwaitingCategory
    case AwaitingCategory => AwaitingCreator
    case AwaitingCreator => AwaitingMedia
    case AwaitingMedia => AwaitingTags
    case AwaitingTags => AwaitingLicense
    case AwaitingLicense => AwaitingConfirmation
    case AwaitingConfirmation => AwaitingConfirmation
  }

  /** session.data: the answers given so far (an absent field is one not yet set). */
  datatype Draft = Draft(
    name: Option<string>,
    description: Option<string>,
    category: Option<string>,
    creator: Option<string>,
    mediaUrl: Option<string>,
    keywords: Option<seq<string>>,
    license: Option<License>)

  const EmptyDraft: Draft := Draft(None, None, None, None, None, None, None)

  datatype Session = Session(step: Step, draft: Draft)

  /**
   * The fields a session has set are exactly those asked before its step; the
   * media URL is the one optional answer and is never set before it is asked.
   */
  predicate WellFormed(s: Session) {
    var n := Position(s.step);
    && (s.draft.name.Some? <==> n >= 1)
    && (s.draft.description.Some? <==> n >= 2)
    && (s.draft.category.Some? <==> n >= 3)
    && (s.draft.creator.Some? <==> n >= 4)
    && (n <= 4 ==> s.draft.mediaUrl.None?)
    && (s.draft.keywords.Some? <==> n >= 6)
    && (s.draft.license.Some? <==> n >= 7)
  }

  /** The data a completed draft hands to protectIP. */
  function ToIpData(d: Draft): IpData
    requires d.name.Some? && d.description.Some? && d.category.Some? && d.creator.Some?
    requires d.keywords.Some? && d.license.Some?
  {
    IpData(d.name.value, d.description.value, d.category.value, d.creator.value,
      d.mediaUrl, d.keywords.value, d.license.value)
  }

  /** The media answer: a case-insensitive "skip" leaves the URL unset, anything else is kept verbatim. */
  function MediaAnswer(text: string): (url: Option<string>)
    ensures url.None? <==> LowerEquals(text, "skip")
    ensures url.Some? ==> url.value == text
  {
    if LowerEquals(text, "skip") then None else Some(text)
  }

  // ---------------------------------------------------------------- tags

  /** The trimmed pieces that are not empty, in order. */
  function KeepTrimmed(pieces: seq<string>): (r: seq<string>)
    ensures forall k :: 0 <= k < |r| ==> r[k] != ""
  {
    if pieces == [] then []
    else
      var t := Trim(pieces[0]);
      (if t == "" then [] else [t]) + KeepTrimmed(pieces[1..])
  }

  /** text.split(',').map(k => k.trim()).filter(k => k), and [] for "skip". */
  function ParseTags(text: string): (r: seq<string>)
    ensures LowerEquals(text, "skip") ==> r == []
    ensures forall k :: 0 <= k < |r| ==> r[k] != ""
  {
    if LowerEquals(text, "skip") then [] else KeepTrimmed(Split(text, ','))
  }

  /** A trimmed piece is part of the piece, so it cannot hold a character the piece lacks. */
  lemma TrimKeepsOut(s: string, c: char)
    requires c !in s
    ensures c !in Trim(s)
  {
    var r := Trim(s);
    var i :| StrippedAt(s, r, i);
    forall k | 0 <= k < |r|
      ensures r[k] != c
    {
      assert r[k] == s[i + k];
    }
  }

  /**
   * The kept tags are exactly the non-empty trimmed pieces, none of which has a
   * comma or surrounding whitespace.
   */
  lemma {:induction false} KeepTrimmedMembers(pieces: seq<string>)
    ensures forall w :: w in KeepTrimmed(pieces) <==> w != "" && exists p :: p in pieces && w == Trim(p)
  {
    if pieces != [] {
      KeepTrimmedMembers(pieces[1..]);
      assert pieces == [pieces[0]] + pieces[1..];
    }
  }

  /** Trimming and filtering piece by piece keeps the pieces' order and multiplicity. */
  lemma {:induction false} KeepTrimmedAppend(a: seq<string>, b: seq<string>)
    ensures KeepTrimmed(a + b) == KeepTrimmed(a) + KeepTrimmed(b)
  {
    if |a| == 0 {
      assert a + b == b;
    } else {
      assert (a + b)[1..] == a[1..] + b;
      KeepTrimmedAppend(a[1..], b);
    }
  }

  /** A single piece becomes its trimmed self, or nothing when that is empty. */
  lemma KeepTrimmedSingle(p: string)
    ensures KeepTrimmed([p]) == if Trim(p) == "" then [] else [Trim(p)]
  {
    assert [p][1..] == [];
  }

  /**
   * The tags of an answer other than "skip" are the comma-separated pieces, trimmed,
   * with the empty ones dropped: no tag is empty, holds a comma, or starts or ends
   * with whitespace.
   */
  lemma TagsOfAnswer(text: string)
    requires !LowerEquals(text, "skip")
    ensures forall w :: w in ParseTags(text) <==> w != "" && exists p :: p in Split(text, ',') && w == Trim(p)
    ensures forall w :: w in ParseTags(text) ==>
      ',' !in w && !IsJsWhitespace(w[0]) && !IsJsWhitespace(w[|w| - 1])
  {
    var pieces := Split(text, ',');
    KeepTrimmedMembers(pieces);
    forall w | w in ParseTags(text)
      ensures ',' !in w && !IsJsWhitespace(w[0]) && !IsJsWhitespace(w[|w| - 1])
    {
      var p :| p in pieces && w == Trim(p);
      TrimKeepsOut(p, ',');
    }
  }

  /**
   * Tags come out in the order they were typed: the tags of two answers joined by a
   * comma are the tags of the first followed by the tags of the second.
   */
  lemma TagsOfJoinedAnswers(a: string, b: string)
    requires !LowerEquals(a, "skip") && !LowerEquals(b, "skip")
    ensures ParseTags(a + "," + b) == ParseTags(a) + ParseTags(b)
  {
    var ab := a + "," + b;
    assert ab[|a|] == ',';
    assert !LowerEquals(ab, "skip");
    SplitAppend(a, b, ',');
    KeepTrimmedAppend(Split(a, ','), Split(b, ','));
  }

  // ---------------------------------------------------------------- license

  /**
   * The license menu: exactly "1" to "4" pick Commercial, Non-Commercial,
   * No-Derivatives and Custom; any other answer falls back to Commercial.
   */
  function ParseLicense(text: string): (license: License)
    ensures license == NonCommercial <==> text == "2"
    ensures license == NoDerivatives <==> text == "3"
    ensures license == Custom <==> text == "4"
    ensures license == Commercial <==> text != "2" && text != "3" && text != "4"
  {
    if text == "1" then Commercial
    else if text == "2" then NonCommercial
    else if text == "3" then NoDerivatives
    else if text == "4" then Custom
    else Commercial
  }

  /** The keys an object literal inherits from Object.prototype. */
  const ObjectPrototypeKeys: set<string> := {
    "constructor", "__proto__", "hasOwnProperty", "isPrototypeOf", "propertyIsEnumerable",
    "toString", "valueOf", "toLocaleString",
    "__defineGetter__", "__defineSetter__", "__lookupGetter__", "__lookupSetter__"}

  /** What `licenseMap[text] || 'Commercial'` evaluates to: a menu license, or an inherited member. */
  datatype LicenseValue = MenuLicense(license: License) | InheritedMember(key: string)

  /**
   * The lookup as written: a plain object literal also answers for the keys it
   * inherits, and each of those values (a function or an object) is truthy, so the
   * Commercial fallback is not taken for them.
   */
  function LicenseAsWritten(text: string): (v: LicenseValue)
    ensures v.InheritedMember? <==> text in ObjectPrototypeKeys
    ensures v.MenuLicense? ==> v.license == ParseLicense(text)
  {
    if text == "1" then MenuLicense(Commercial)
    else if text == "2" then MenuLicense(NonCommercial)
    else if text == "3" then MenuLicense(NoDerivatives)
    else if text == "4" then MenuLicense(Custom)
    else if text in ObjectPrototypeKeys then InheritedMember(text)
    else MenuLicense(Commercial)
  }

  /** The answer "constructor" gets no license at all, where the fallback promises Commercial. */
  lemma InheritedKeyEscapesFallback()
    ensures LicenseAsWritten("constructor") == InheritedMember("constructor")
    ensures ParseLicense("constructor") == Commercial
  {
  }

  // ---------------------------------------------------------------- one answer

  /** What an answer does to a session. */
  datatype Transition =
    | Continue(next: Session)
    | Register(data: IpData)
    | Cancel
    | Reprompt

  /**
   * The text handler for a user with a session: every step before the confirmation
   * stores the answer and moves exactly one step on; at the confirmation a
   * case-insensitive "confirm" registers the draft, "cancel" abandons it, and any
   * other answer leaves the session as it is.
   */
  function Respond(s: Session, text: string): (t: Transition)
    requires WellFormed(s)
    ensures s.step != AwaitingConfirmation ==> t.Continue? && t.next.step == NextStep(s.step)
    ensures t.Continue? ==> WellFormed(t.next)
    ensures s.step == AwaitingConfirmation ==>
      && (t.Register? <==> LowerEquals(text, "confirm"))
      && (t.Cancel? <==> LowerEquals(text, "cancel"))
      && (t.Reprompt? <==> !LowerEquals(text, "confirm") && !LowerEquals(text, "cancel"))
    ensures t.Register? ==> s.step == AwaitingConfirmation && t.data == ToIpData(s.draft)
  {
    var d := s.draft;
    match s.step
    case AwaitingName => Continue(Session(AwaitingDescription, d.(name := Some(text))))
    case AwaitingDescription => Continue(Session(AwaitingCategory, d.(description := Some(text))))
    case AwaitingCategory => Continue(Session(AwaitingCreator, d.(category := Some(text))))
    case AwaitingCreator => Continue(Session(AwaitingMedia, d.(creator := Some(text))))
    case AwaitingMedia => Continue(Session(AwaitingTags, d.(mediaUrl := MediaAnswer(text))))
    case AwaitingTags => Continue(Session(AwaitingLicense, d.(keywords := Some(ParseTags(text)))))
    case AwaitingLicense => Continue(Session(AwaitingConfirmation, d.(license := Some(ParseLicense(text)))))
    case AwaitingConfirmation =>
      if LowerEquals(text, "confirm") then Register(ToIpData(d))
      else if LowerEquals(text, "cancel") then Cancel
      else Reprompt
  }

  /** The session after a series of answers, as long as each of them moves the dialogue on. */
  function Run(s: Session, answers: seq<string>): (r: Option<Session>)
    requires WellFormed(s)
    ensures r.Some? ==> WellFormed(r.value)
    decreases |answers|
  {
    if answers == [] then Some(s)
    else
      match Respond(s, answers[0])
      case Continue(next) => Run(next, answers[1..])
      case _ => None
  }

  /** The first four answers are stored verbatim. */
  lemma DialogueOpening(name: string, description: string, category: string, creator: string, rest: seq<string>)
    ensures Run(Session(AwaitingName, EmptyDraft), [name, description, category, creator] + rest)
         == Run(Session(AwaitingMedia, Draft(Some(name), Some(description), Some(category), Some(creator),
              None, None, None)), rest)
  {
    var answers := [name, description, category, creator] + rest;
    var s1 := Session(AwaitingDescription, EmptyDraft.(name := Some(name)));
    var s2 := Session(AwaitingCategory, s1.draft.(description := Some(description)));
    var s3 := Session(AwaitingCreator, s2.draft.(category := Some(category)));
    assert answers[1..][1..][1..][1..] == rest;
    assert Run(s1, answers[1..]) == Run(s2, answers[1..][1..]);
    assert Run(s2, answers[1..][1..]) == Run(s3, answers[1..][1..][1..]);
  }

  /** The media, tags and license answers are parsed, and the dialogue waits for confirmation. */
  lemma DialogueClosing(d: Draft, media: string, tags: string, license: string)
    requires WellFormed(Session(AwaitingMedia, d))
    ensures Run(Session(AwaitingMedia, d), [media, tags, license])
         == Some(Session(AwaitingConfirmation, d.(mediaUrl := MediaAnswer(media),
              keywords := Some(ParseTags(tags)), license := Some(ParseLicense(license)))))
  {
    var s5 := Session(AwaitingTags, d.(mediaUrl := MediaAnswer(media)));
    var s6 := Session(AwaitingLicense, s5.draft.(keywords := Some(ParseTags(tags))));
    var s7 := Session(AwaitingConfirmation, s6.draft.(license := Some(ParseLicense(license))));
    assert [media, tags, license][1..] == [tags, license];
    assert [tags, license][1..] == [license];
    assert [license][1..] == [];
    assert Run(s6, [license]) == Some(s7);
    assert Run(s5, [tags, license]) == Some(s7);
  }

  /**
   * The whole dialogue: from a fresh session, seven answers reach the confirmation
   * step with the name, description, category and creator stored verbatim, the
   * media URL unless skipped, the parsed tags and the chosen license.
   */
  lemma Dialogue(answers: seq<string>)
    requires |answers| == 7
    ensures var r := Run(Session(AwaitingName, EmptyDraft), answers);
      && r.Some?
      && r.value.step == AwaitingConfirmation
      && ToIpData(r.value.draft) == IpData(answers[0], answers[1], answers[2], answers[3],
           MediaAnswer(answers[4]), ParseTags(answers[5]), ParseLicense(answers[6]))
  {
    var a := answers;
    assert a == [a[0], a[1], a[2], a[3]] + [a[4], a[5], a[6]];
    DialogueOpening(a[0], a[1], a[2], a[3], [a[4], a[5], a[6]]);
    DialogueClosing(Draft(Some(a[0]), Some(a[1]), Some(a[2]), Some(a[3]), None, None, None), a[4], a[5], a[6]);
  }

  // ---------------------------------------------------------------- callback data

  const CallbackPrefix: string := "enforce_"

  /** The callback data of an enforce button: enforce_<tone>_<ipId>. */
  function BuildCallback(tone: string, ipId: string): string {
    CallbackPrefix + tone + "_" + ipId
  }

  /** \w: an ASCII letter, digit or underscore. */
  predicate IsWordChar(c: char) {
    ('a' <= c <= 'z') || ('A' <= c <= 'Z') || ('0' <= c <= '9') || c == '_'
  }

  /** The characters `.` does not match. */
  predicate IsLineTerminator(c: char) {
    c == '\n' || c == '\r' || c == '\U{2028}' || c == '\U{2029}'
  }

  /** The end of the run of word characters starting at i. */
  function WordEnd(s: string, i: nat): (e: nat)
    requires i <= |s|
    ensures i <= e <= |s|
    ensures forall k :: i <= k < e ==> IsWordChar(s[k])
    ensures e == |s| || !IsWordChar(s[e])
    decreases |s| - i
  {
    if i < |s| && IsWordChar(s[i]) then WordEnd(s, i + 1) else i
  }

  /** The end of the run of characters `.` matches, starting at i. */
  function LineEnd(s: string, i: nat): (e: nat)
    requires i <= |s|
    ensures i <= e <= |s|
    ensures forall k :: i <= k < e ==> !IsLineTerminator(s[k])
    ensures e == |s| || IsLineTerminator(s[e])
    decreases |s| - i
  {
    if i < |s| && !IsLineTerminator(s[i]) then LineEnd(s, i + 1) else i
  }

  /** An underscore at u can end `(\w+)_` with `(.+)` matching at least the character after it. */
  predicate SplitsAt(s: string, u: int) {
    0 <= u && u + 1 < |s| && s[u] == '_' && !IsLineTerminator(s[u + 1])
  }

  /**
   * The backtracking of the greedy `\w+` that starts at i: the last position before
   * j (j being the end of the word run) where `_(.+)` can follow a non-empty group.
   */
  function LastSplit(s: string, i: nat, j: nat): (u: Option<nat>)
    requires i <= j <= |s|
    ensures u.Some? ==> i < u.value < j && SplitsAt(s, u.value)
    ensures u.Some? ==> forall v :: u.value < v < j ==> !SplitsAt(s, v)
    ensures u.None? ==> forall v :: i < v < j ==> !SplitsAt(s, v)
    decreases j
  {
    if j <= i + 1 then None
    else if SplitsAt(s, j - 1) then Some(j - 1)
    else LastSplit(s, i, j - 1)
  }

  /** The match of /enforce_(\w+)_(.+)/ that starts at p, as its two groups. */
  function MatchAt(s: string, p: nat): Option<(string, string)> {
    if p + |CallbackPrefix| <= |s| && s[p..p + |CallbackPrefix|] == CallbackPrefix then
      var i := p + |CallbackPrefix|;
      match LastSplit(s, i, WordEnd(s, i))
      case None => None
      case Some(u) => Some((s[i..u], s[u + 1..LineEnd(s, u + 1)]))
    else None
  }

  function SearchFrom(s: string, p: nat): Option<(string, string)>
    decreases |s| - p
  {
    if p > |s| then None
    else if MatchAt(s, p).Some? then MatchAt(s, p)
    else SearchFrom(s, p + 1)
  }

  /** The (tone, ipId) groups of the leftmost match of /enforce_(\w+)_(.+)/, as written. */
  function ParseCallbackAsWritten(s: string): Option<(string, string)> {
    SearchFrom(s, 0)
  }

  /** The pieces of a built callback that the regex can see through. */
  predicate PlainTone(tone: string) {
    tone != [] && forall k :: 0 <= k < |tone| ==> IsWordChar(tone[k]) && tone[k] != '_'
  }

  predicate PlainId(ipId: string) {
    ipId != [] && forall k :: 0 <= k < |ipId| ==> ipId[k] != '_' && !IsLineTerminator(ipId[k])
  }

  /**
   * The match at the start of callback data: when `u` is the last underscore inside
   * the word run after the prefix that can split, and nothing after it ends the
   * line, the groups are what lies on either side of `u`.
   */
  lemma MatchFromStart(s: string, u: nat)
    requires |s| >= 8 && s[..8] == CallbackPrefix
    requires 8 < u < WordEnd(s, 8)
    requires SplitsAt(s, u)
    requires forall v :: u < v < |s| ==> !SplitsAt(s, v)
    requires LineEnd(s, u + 1) == |s|
    ensures ParseCallbackAsWritten(s) == Some((s[8..u], s[u + 1..]))
  {
    assert |CallbackPrefix| == 8;
    assert s[0..8] == CallbackPrefix;
    assert LastSplit(s, 8, WordEnd(s, 8)) == Some(u);
    assert s[u + 1..LineEnd(s, u + 1)] == s[u + 1..];
    assert MatchAt(s, 0) == Some((s[8..u], s[u + 1..]));
  }

  /**
   * Where the regex is right: a tone of word characters without `_` and an id
   * without `_` or line terminators come back as built.
   */
  lemma RoundTripAsWritten(tone: string, ipId: string)
    requires PlainTone(tone) && PlainId(ipId)
    ensures ParseCallbackAsWritten(BuildCallback(tone, ipId)) == Some((tone, ipId))
  {
    var s := BuildCallback(tone, ipId);
    var u := 8 + |tone|;
    assert s == CallbackPrefix + tone + "_" + ipId;
    assert s[u] == '_' && s[u + 1] == ipId[0];
    assert s[8..u] == tone;
    assert s[u + 1..] == ipId;
    forall k | 8 <= k <= u
      ensures IsWordChar(s[k])
    {
      if k < u {
        assert s[k] == tone[k - 8];
      }
    }
    assert WordEnd(s, 8) > u;
    forall v | u < v < |s|
      ensures !SplitsAt(s, v)
    {
      assert s[v] == ipId[v - u - 1];
    }
    forall k | u + 1 <= k < |s|
      ensures !IsLineTerminator(s[k])
    {
      assert s[k] == ipId[k - u - 1];
    }
    assert LineEnd(s, u + 1) == |s|;
    assert s[..8] == CallbackPrefix;
    MatchFromStart(s, u);
  }

  /** A decimal digit string, as Date.now() prints. */
  predicate Digits(d: string) {
    d != [] && forall k :: 0 <= k < |d| ==> '0' <= d[k] <= '9'
  }

  /**
   * Where it is wrong: a mock-mode IP id "0xMOCK_IP_<timestamp>" is split at its last
   * underscore, so the tone swallows "_0xMOCK_IP" and the id is the bare timestamp.
   */
  lemma MockIdMisparsed(tone: string, stamp: string)
    requires PlainTone(tone) && Digits(stamp)
    ensures ParseCallbackAsWritten(BuildCallback(tone, "0xMOCK_IP_" + stamp))
      == Some((tone + "_0xMOCK_IP", stamp))
    ensures stamp != "0xMOCK_IP_" + stamp
  {
    var ipId := "0xMOCK_IP_" + stamp;
    var s := BuildCallback(tone, ipId);
    var u := |s| - |stamp| - 1;
    assert s == CallbackPrefix + tone + "_" + ipId;
    assert s == (CallbackPrefix + tone + "_0xMOCK_IP") + "_" + stamp;
    assert s[u] == '_' && s[u + 1] == stamp[0];
    assert s[8..u] == tone + "_0xMOCK_IP";
    assert s[u + 1..] == stamp;
    forall k | 8 <= k <= u
      ensures IsWordChar(s[k])
    {
      if k < 8 + |tone| {
        assert s[k] == tone[k - 8];
      } else {
        assert s[k] == ("_0xMOCK_IP_" + stamp)[k - 8 - |tone|];
      }
    }
    assert WordEnd(s, 8) > u;
    forall v | u < v < |s|
      ensures !SplitsAt(s, v)
    {
      assert s[v] == stamp[v - u - 1];
    }
    forall k | u + 1 <= k < |s|
      ensures !IsLineTerminator(s[k])
    {
      assert s[k] == stamp[k - u - 1];
    }
    assert LineEnd(s, u + 1) == |s|;
    assert s[..8] == CallbackPrefix;
    MatchFromStart(s, u);
  }

  /** The index of the first `_` in s at or after i (|s| when there is none). */
  function FirstUnderscore(s: string, i: nat): (k: nat)
    requires i <= |s|
    ensures i <= k <= |s|
    ensures forall j :: i <= j < k ==> s[j] != '_'
    ensures k < |s| ==> s[k] == '_'
    decreases |s| - i
  {
    if i < |s| && s[i] != '_' then FirstUnderscore(s, i + 1) else i
  }

  /**
   * The callback parse the buttons need: the data starts with "enforce_", the tone
   * runs to the first underscore after it and is not empty, and the id is the
   * non-empty rest, underscores and all.
   */
  function ParseCallback(s: string): Option<(string, string)> {
    if |s| >= |CallbackPrefix| && s[..|CallbackPrefix|] == CallbackPrefix then
      var k := FirstUnderscore(s, |CallbackPrefix|);
      if |CallbackPrefix| < k && k + 1 < |s| then Some((s[|CallbackPrefix|..k], s[k + 1..])) else None
    else None
  }

  /** Every id, mock ids included, comes back as built, for any tone without `_`. */
  lemma RoundTrip(tone: string, ipId: string)
    requires tone != [] && '_' !in tone && ipId != []
    ensures ParseCallback(BuildCallback(tone, ipId)) == Some((tone, ipId))
  {
    var s := BuildCallback(tone, ipId);
    var n := |CallbackPrefix|;
    assert s == CallbackPrefix + tone + "_" + ipId;
    assert s[..n] == CallbackPrefix;
    forall j | n <= j < n + |tone|
      ensures s[j] != '_'
    {
      assert s[j] == tone[j - n];
    }
    assert s[n + |tone|] == '_';
    assert FirstUnderscore(s, n) == n + |tone|;
    assert s[n..n + |tone|] == tone;
    assert s[n + |tone| + 1..] == ipId;
  }

  /** And everything it accepts is a built callback with such a tone and a non-empty id. */
  lemma ParsedIsBuilt(s: string)
    requires ParseCallback(s).Some?
    ensures var (tone, ipId) := ParseCallback(s).value;
      && tone != [] && '_' !in tone && ipId != []
      && BuildCallback(tone, ipId) == s
  {
    var n := |CallbackPrefix|;
    var k := FirstUnderscore(s, n);
    var (tone, ipId) := ParseCallback(s).value;
    assert tone == s[n..k] && ipId == s[k + 1..];
    forall j | 0 <= j < |tone|
      ensures tone[j] != '_'
    {
      assert tone[j] == s[n + j];
    }
    assert s == s[..n] + s[n..k] + [s[k]] + s[k + 1..];
  }

  // ---------------------------------------------------------------- the bot

  /** The replies, named by what they report. */
  datatype Reply =
    | HelpReply
    | Ask(step: Step)
    | RegistrationOutcome(result: ProtectResult)
    | Cancelled
    | ConfirmOrCancel
    | NothingToEnforce
    | ChooseStyle(assetName: string, callbacks: seq<string>)
    | NotFound
    | EnforcementOutcome(text: string)

  /** The first entry for ipId, as Array.prototype.find returns it. */
  function FindItem(items: seq<PendingItem>, ipId: string): (r: Option<PendingItem>)
    ensures r.Some? ==> r.value.ipId == ipId
    ensures r.Some? ==>
      exists i :: 0 <= i < |items| && items[i] == r.value && (forall k :: 0 <= k < i ==> items[k].ipId != ipId)
    ensures r.None? ==> forall item :: item in items ==> item.ipId != ipId
  {
    if items == [] then None
    else if items[0].ipId == ipId then Some(items[0])
    else FindItem(items[1..], ipId)
  }

  class IPWhispererBot {
    /** userSessions: user id -> session. */
    var sessions: map<string, Session>
    const orchestrator: AgentOrchestrator

    ghost predicate Valid()
      reads this, orchestrator
    {
      && orchestrator.Valid()
      && forall u :: u in sessions ==> WellFormed(sessions[u])
    }

    constructor(orchestrator: AgentOrchestrator)
      requires orchestrator.Valid()
      ensures Valid()
      ensures this.orchestrator == orchestrator && sessions == map[]
    {
      this.orchestrator := orchestrator;
      sessions := map[];
    }

    /** /protect: a fresh session at the name step, replacing any dialogue in progress. */
    method Protect(userId: string) returns (reply: Reply)
      requires Valid()
      modifies this
      ensures Valid()
      ensures sessions == old(sessions)[userId := Session(AwaitingName, EmptyDraft)]
      ensures reply == Ask(AwaitingName)
    {
      sessions := sessions[userId := Session(AwaitingName, EmptyDraft)];
      reply := Ask(AwaitingName);
    }

    /**
     * The text handler: a user without a session gets the help reply and no session.
     * Otherwise the answer is applied to the session; a confirmation registers the
     * draft once and ends the session whatever the outcome, a cancellation ends it,
     * and an unrecognised confirmation answer changes nothing.
     */
    method OnText(userId: string, text: string, registration: Registration, scan: ScanOracle)
      returns (reply: Reply)
      requires Valid()
      modifies this, orchestrator
      ensures Valid()
      ensures userId !in old(sessions) ==>
        reply == HelpReply && sessions == old(sessions) && unchanged(orchestrator)
      ensures userId in old(sessions) ==>
        var t := Respond(old(sessions)[userId], text);
        && (t.Continue? ==>
              sessions == old(sessions)[userId := t.next] && reply == Ask(t.next.step) && unchanged(orchestrator))
        && (t.Cancel? ==>
              sessions == old(sessions) - {userId} && reply == Cancelled && unchanged(orchestrator))
        && (t.Reprompt? ==>
              sessions == old(sessions) && reply == ConfirmOrCancel && unchanged(orchestrator))
        && (t.Register? ==>
              && sessions == old(sessions) - {userId}
              && orchestrator.scanJob == old(orchestrator.scanJob)
              && match registration
                case RegistrationRejected(error) =>
                  && reply == RegistrationOutcome(NotRegistered(error))
                  && orchestrator.assets == old(orchestrator.assets) && orchestrator.order == old(orchestrator.order)
                case RegistrationThrew(error) =>
                  && reply == RegistrationOutcome(ProtectFailed(error))
                  && orchestrator.assets == old(orchestrator.assets) && orchestrator.order == old(orchestrator.order)
                case Registered(ipId, txHash) =>
                  var asset := MonitoredAsset(ipId, userId, t.data, txHash, None);
                  && orchestrator.assets == old(orchestrator.assets)[ipId := asset]
                  && orchestrator.order ==
                       (if ipId in old(orchestrator.assets) then old(orchestrator.order) else old(orchestrator.order) + [ipId])
                  && reply == RegistrationOutcome(match scan(asset)
                       case Ok(found) => Protected(asset, |found|, Take(found, 3))
                       case Failed(error) => ProtectFailed(error)))
    {
      if userId !in sessions {
        return HelpReply;
      }
      var session := sessions[userId];
      var t := Respond(session, text);
      match t
      case Continue(next) =>
        sessions := sessions[userId := next];
        reply := Ask(next.step);
      case Register(data) =>
        var result := orchestrator.ProtectIP(userId, data, registration, scan);
        sessions := sessions - {userId};
        reply := RegistrationOutcome(result);
      case Cancel =>
        sessions := sessions - {userId};
        reply := Cancelled;
      case Reprompt =>
        reply := ConfirmOrCancel;
    }

    /**
     * /enforce: nothing to do without pending violations; otherwise one button per
     * tone for the user's first pending asset.
     */
    method OnEnforceCommand(userId: string) returns (reply: Reply)
      requires orchestrator.Valid()
      ensures var items := PendingFor(InOrder(orchestrator.order, orchestrator.assets), userId);
        && (items == [] ==> reply == NothingToEnforce)
        && (items != [] ==> reply == ChooseStyle(items[0].name,
              [BuildCallback("friendly", items[0].ipId), BuildCallback("formal", items[0].ipId),
               BuildCallback("vibe", items[0].ipId)]))
    {
      var items := orchestrator.GetPendingViolations(userId);
      if |items| == 0 {
        return NothingToEnforce;
      }
      var first := items[0];
      var callbacks := [BuildCallback("friendly", first.ipId), BuildCallback("formal", first.ipId),
        BuildCallback("vibe", first.ipId)];
      reply := ChooseStyle(first.name, callbacks);
    }

    /**
     * The enforce action: data the callback parse rejects is not handled. The parsed
     * id must be among the user's pending entries, else "Not found"; otherwise that
     * asset's first pending violation is enforced with the parsed tone and automatic
     * dispute, the reply is the handled message or a failure, and a success clears
     * the asset's pending list.
     */
    method OnEnforceAction(userId: string, data: string, env: EnforcementEnv)
      returns (reply: Option<Reply>, handled: Option<HandleResult>, alert: AlertDelivery)
      requires orchestrator.Valid()
      modifies orchestrator
      ensures orchestrator.Valid()
      ensures ParseCallback(data).None? ==> reply == None && handled == None && alert == NoAlert && unchanged(orchestrator)
      ensures ParseCallback(data).Some? ==>
        var (tone, ipId) := ParseCallback(data).value;
        var items := PendingFor(InOrder(old(orchestrator.order), old(orchestrator.assets)), userId);
        && (FindItem(items, ipId).None? ==>
              reply == Some(NotFound) && handled == None && alert == NoAlert && unchanged(orchestrator))
        && (FindItem(items, ipId).Some? ==>
              && ipId in old(orchestrator.assets)
              && handled.Some? && handled.value.Handled?
              && EnforceOutcome(env, old(orchestrator.assets)[ipId], FindItem(items, ipId).value.violations[0],
                   EnforceOptions(Some(tone), Some(true), None), handled.value.result, alert)
              && reply == Some(EnforcementOutcome(
                   if handled.value.success then handled.value.message else "\U{274C} Failed"))
              && orchestrator.order == old(orchestrator.order)
              && orchestrator.scanJob == old(orchestrator.scanJob)
              && (handled.value.success ==>
                    orchestrator.assets == old(orchestrator.assets)[ipId :=
                      old(orchestrator.assets)[ipId].(pending := Some([]))])
              && (!handled.value.success ==> orchestrator.assets == old(orchestrator.assets)))
    {
      var parsed := ParseCallback(data);
      if parsed.None? {
        return None, None, NoAlert;
      }
      var (tone, ipId) := parsed.value;
      var items := orchestrator.GetPendingViolations(userId);
      var item := FindItem(items, ipId);
      if item.None? {
        return Some(NotFound), None, NoAlert;
      }
      assert |item.value.violations| > 0 && ipId in orchestrator.assets;
      var result;
      result, alert := orchestrator.HandleEnforcement(ipId, item.value.violations[0],
        EnforceOptions(Some(tone), Some(true), None), env);
      handled := Some(result);
      reply := Some(EnforcementOutcome(if result.success then result.message else "\U{274C} Failed"));
      if result.success {
        orchestrator.ClearPendingViolations(ipId);
      }
    }
  }
}
