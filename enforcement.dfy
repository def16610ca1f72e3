/**
 * The enforcement engine: the tone chosen for the LLM prompt, the template
 * messages, the fallback chain ABV -> OpenAI -> template, the option defaults and
 * gating of an enforcement action, the alert that never fails, and the message of
 * every tone.
 *
 * The language models, the dispute registry and the alert webhook are oracles that
 * may fail; the percentage rendering `(similarity * 100).toFixed(1)` is an oracle
 * too. The fixed wording of the prompt and the templates is a parameter
 * (`MessageEnv.wording`): `FixedText` holds the repository's wording, and every
 * property below holds whatever the wording is.
 */
module Enforcement {
  import opened Domain
  import opened JsText

  // ---------------------------------------------------------------- links and tones

  const ClaimBase: string := "https://story.foundation/claim/"
  const ExplorerBase: string := "https://aeneid.explorer.story.foundation/ipa/"

  function ClaimLink(ipId: string): string {
    ClaimBase + ipId
  }

  function ExplorerLink(ipId: string): string {
    ExplorerBase + ipId
  }

  /** The tone instruction of the prompt: the `switch` with its default branch. */
  function ToneInstruction(tone: string): Fixed {
    if tone == "vibe" then VibeInstruction
    else if tone == "formal" then FormalInstruction
    else FriendlyInstruction
  }

  /**
   * Exactly "vibe" selects the Gen-Z instruction and exactly "formal" the
   * legalistic one; every other tone, "friendly" or not, gets the friendly one.
   */
  lemma ToneChoice(tone: string)
    ensures ToneInstruction(tone) in {VibeInstruction, FormalInstruction, FriendlyInstruction}
    ensures ToneInstruction(tone) == VibeInstruction <==> tone == "vibe"
    ensures ToneInstruction(tone) == FormalInstruction <==> tone == "formal"
    ensures ToneInstruction(tone) == FriendlyInstruction <==> tone != "vibe" && tone != "formal"
  {
  }

  /** Number.prototype.toString for a natural number: its decimal digits. */
  function NatToString(n: nat): string
    decreases n
  {
    if n < 10 then [Digit(n)] else NatToString(n / 10) + [Digit(n % 10)]
  }

  function Digit(d: nat): char
    requires d < 10
  {
    "0123456789"[d]
  }

  // ---------------------------------------------------------------- template literals

  /**
   * The fixed texts of the prompt (the three tone instructions among them) and of
   * the two message templates: the text between two interpolations of a template
   * literal.
   */
  datatype Fixed =
    | PromptOpening | PromptDescription | PromptIpId | PromptPlatform | PromptUrl
    | PromptSimilarity | PromptEngagement | PromptTone | PromptInstructions | PromptExplorer | PromptClosing
    | VibeOpening | VibeIpId | VibeClaim | VibeExplorer | VibeClosing
    | FormalOpening | FormalName | FormalIpId | FormalExplorer | FormalClaim | FormalClosing
    | VibeInstruction | FormalInstruction | FriendlyInstruction

  /**
   * The repository's wording of each fixed text, as it stands once `.trim()` has
   * removed the layout whitespace around the whole literal (every literal starts
   * and ends with a visible character, so trimming removes nothing else).
   */
  function FixedText(f: Fixed): string {
    match f
    case PromptOpening =>
      "Generate a DM message for someone who used copyrighted content without permission.\n\n**Original IP Asset:**\n- Name: "
    case PromptDescription => "\n- Description: "
    case PromptIpId => "\n- Registered on Story Protocol with ID: "
    case PromptPlatform => "\n\n**Violation Details:**\n- Platform: "
    case PromptUrl => "\n- Post URL: "
    case PromptSimilarity => "\n- Similarity: "
    case PromptEngagement => "%\n- Engagement: "
    case PromptTone => " interactions\n\n**Tone:** "
    case PromptInstructions =>
      "\n\n**Instructions:**\n1. Start with a polite and appropriate greeting\n2. Acknowledge their content quality\n"
      + "3. Clearly state that it uses registered IP, providing the IP Name and ID\n"
      + "4. Explain the situation formally but constructively\n5. Offer options: License officially or set up royalty split\n"
      + "6. Include the Claim link: "
    case PromptExplorer => "\n7. Include the Block Explorer link to view the IP: "
    case PromptClosing => "\n8. Keep it under 250 words\n9. End professionally\n\nGenerate the message:"
    case VibeOpening => "yo! \U{1F44B} \n\nsaw your post ("
    case VibeIpId =>
      ") and it's actually fire \U{1F525} \n\nbut heads up\U{2014}that's registered IP on Story Protocol (ID: "
    case VibeClaim =>
      "). no drama tho! \n\nwanna make it legit? you can license it or we can split royalties here:\nClaim: "
    case VibeExplorer => "\nView IP: "
    case VibeClosing => "\n\nlet's collab instead of beef \U{1F91D}\n\n- IP Whisperer \U{1F92B}"
    case FormalOpening =>
      "Dear Content Creator," + "\n\nI trust this message finds you well. I recently came across your post at "
    case FormalName =>
      " and wanted to acknowledge the quality of your content.\n\n"
      + "However, I must bring to your attention that this content utilizes \""
    case FormalIpId => "\", which is formally registered intellectual property on the Story Protocol (IP ID: "
    case FormalExplorer =>
      ").\n\nWe believe in fostering a collaborative ecosystem. "
      + "To resolve this matter amicably and ensure proper usage rights, we invite you to:\n"
      + "- Obtain an official license\n- Arrange for a royalty split\n- Provide proper attribution\n\n"
      + "You may view the registered IP details here:\n"
    case FormalClaim => "\n\nTo proceed with licensing or dispute resolution, please visit:\n"
    case FormalClosing => "\n\nWe look forward to a positive resolution.\n\nSincerely,\nIP Whisperer"
    case VibeInstruction => "Use Gen-Z slang, emojis, and make it fun but clear about the IP claim."
    case FormalInstruction =>
      "Use strictly professional, legalistic, and formal language. Be descriptive about the IP details."
    case FriendlyInstruction => "Be friendly, professional, and descriptive, encouraging collaboration."
  }

  /** A piece of a template literal: fixed text or an interpolated value. */
  datatype Segment = Text(fixed: Fixed) | Value(value: string)

  /** The string a template literal evaluates to. */
  function Render(wording: Fixed -> string, segments: seq<Segment>): string {
    if |segments| == 0 then ""
    else
      SegmentText(wording, segments[0]) + Render(wording, segments[1..])
  }

  function SegmentText(wording: Fixed -> string, segment: Segment): string {
    match segment
    case Text(f) => wording(f)
    case Value(v) => v
  }

  /** Every piece of a template literal, fixed or interpolated, occurs in the rendered text. */
  lemma {:induction false} SegmentInRender(wording: Fixed -> string, segments: seq<Segment>, k: nat)
    requires k < |segments|
    ensures IsInfix(SegmentText(wording, segments[k]), Render(wording, segments))
  {
    var head := SegmentText(wording, segments[0]);
    var rest := Render(wording, segments[1..]);
    if k == 0 {
      assert (head + rest)[0..|head|] == head;
    } else {
      SegmentInRender(wording, segments[1..], k - 1);
      InfixOfPrepended(SegmentText(wording, segments[k]), head, rest);
    }
  }

  // ---------------------------------------------------------------- the prompt

  function PromptSegments(asset: MonitoredAsset, violation: Match, tone: string, percent: string): seq<Segment> {
    [ Text(PromptOpening), Value(asset.data.name),
      Text(PromptDescription), Value(asset.data.description),
      Text(PromptIpId), Value(asset.ipId),
      Text(PromptPlatform), Value(violation.candidate.platform),
      Text(PromptUrl), Value(violation.candidate.url),
      Text(PromptSimilarity), Value(percent),
      Text(PromptEngagement), Value(NatToString(violation.candidate.engagement)),
      Text(PromptTone), Text(ToneInstruction(tone)),
      Text(PromptInstructions), Value(ClaimLink(asset.ipId)),
      Text(PromptExplorer), Value(ExplorerLink(asset.ipId)),
      Text(PromptClosing) ]
  }

  /** buildPrompt: the trimmed template literal, `percent` standing for the formatted similarity. */
  function BuildPrompt(wording: Fixed -> string, asset: MonitoredAsset, violation: Match, tone: string, percent: string): string {
    Render(wording, PromptSegments(asset, violation, tone, percent))
  }

  /** An interpolated value occurs in the rendered text. */
  lemma ValueInRender(wording: Fixed -> string, segments: seq<Segment>, k: nat)
    requires k < |segments| && segments[k].Value?
    ensures IsInfix(segments[k].value, Render(wording, segments))
  {
    SegmentInRender(wording, segments, k);
  }

  /** The k-th piece of the prompt, an interpolated value, occurs in the prompt. */
  lemma PromptValue(wording: Fixed -> string, asset: MonitoredAsset, violation: Match, tone: string, percent: string, k: nat)
    requires k < 21 && k % 2 == 1 && k != 15
    ensures IsInfix(PromptSegments(asset, violation, tone, percent)[k].value, BuildPrompt(wording, asset, violation, tone, percent))
  {
    ValueInRender(wording, PromptSegments(asset, violation, tone, percent), k);
  }

  /** The prompt names the asset: its name, its description and its ipId. */
  lemma PromptNamesAsset(wording: Fixed -> string, asset: MonitoredAsset, violation: Match, tone: string, percent: string)
    ensures var prompt := BuildPrompt(wording, asset, violation, tone, percent);
      && IsInfix(asset.data.name, prompt)
      && IsInfix(asset.data.description, prompt)
      && IsInfix(asset.ipId, prompt)
  {
    PromptValue(wording, asset, violation, tone, percent, 1);
    PromptValue(wording, asset, violation, tone, percent, 3);
    PromptValue(wording, asset, violation, tone, percent, 5);
  }

  /** The prompt names the violation (platform and post URL) and gives the claim and explorer links of the ipId. */
  lemma PromptNamesViolation(wording: Fixed -> string, asset: MonitoredAsset, violation: Match, tone: string, percent: string)
    ensures var prompt := BuildPrompt(wording, asset, violation, tone, percent);
      && IsInfix(violation.candidate.platform, prompt)
      && IsInfix(violation.candidate.url, prompt)
      && IsInfix(ClaimLink(asset.ipId), prompt)
      && IsInfix(ExplorerLink(asset.ipId), prompt)
  {
    PromptValue(wording, asset, violation, tone, percent, 7);
    PromptValue(wording, asset, violation, tone, percent, 9);
    PromptValue(wording, asset, violation, tone, percent, 17);
    PromptValue(wording, asset, violation, tone, percent, 19);
  }

  /** The prompt carries the tone's instruction: Gen-Z for "vibe", legalistic for "formal", friendly otherwise. */
  lemma PromptCarriesTone(wording: Fixed -> string, asset: MonitoredAsset, violation: Match, tone: string, percent: string)
    ensures var prompt := BuildPrompt(wording, asset, violation, tone, percent);
      && (tone == "vibe" ==> IsInfix(wording(VibeInstruction), prompt))
      && (tone == "formal" ==> IsInfix(wording(FormalInstruction), prompt))
      && (tone != "vibe" && tone != "formal" ==> IsInfix(wording(FriendlyInstruction), prompt))
  {
    ToneChoice(tone);
    SegmentInRender(wording, PromptSegments(asset, violation, tone, percent), 15);
  }

  // ---------------------------------------------------------------- templates

  function VibeSegments(asset: MonitoredAsset, violation: Match): seq<Segment> {
    [ Text(VibeOpening), Value(violation.candidate.url),
      Text(VibeIpId), Value(asset.ipId),
      Text(VibeClaim), Value(ClaimLink(asset.ipId)),
      Text(VibeExplorer), Value(ExplorerLink(asset.ipId)),
      Text(VibeClosing) ]
  }

  function FormalSegments(asset: MonitoredAsset, violation: Match): seq<Segment> {
    [ Text(FormalOpening), Value(violation.candidate.url),
      Text(FormalName), Value(asset.data.name),
      Text(FormalIpId), Value(asset.ipId),
      Text(FormalExplorer), Value(ExplorerLink(asset.ipId)),
      Text(FormalClaim), Value(ClaimLink(asset.ipId)),
      Text(FormalClosing) ]
  }

  /** getTemplateMessage: the casual template for "vibe", the formal one for every other tone. */
  function TemplateMessage(wording: Fixed -> string, asset: MonitoredAsset, violation: Match, tone: string): string {
    if tone == "vibe" then Render(wording, VibeSegments(asset, violation))
    else Render(wording, FormalSegments(asset, violation))
  }

  /** The k-th piece of the casual template, an interpolated value, occurs in it. */
  lemma VibeValue(wording: Fixed -> string, asset: MonitoredAsset, violation: Match, k: nat)
    requires k < 9 && k % 2 == 1
    ensures IsInfix(VibeSegments(asset, violation)[k].value, TemplateMessage(wording, asset, violation, "vibe"))
  {
    ValueInRender(wording, VibeSegments(asset, violation), k);
  }

  /** The k-th piece of the formal template, an interpolated value, occurs in it. */
  lemma FormalValue(wording: Fixed -> string, asset: MonitoredAsset, violation: Match, k: nat)
    requires k < 11 && k % 2 == 1
    ensures IsInfix(FormalSegments(asset, violation)[k].value, TemplateMessage(wording, asset, violation, "formal"))
  {
    ValueInRender(wording, FormalSegments(asset, violation), k);
  }

  /** The casual template carries the post URL, the ipId and both links. */
  lemma VibeTemplateContents(wording: Fixed -> string, asset: MonitoredAsset, violation: Match)
    ensures var message := TemplateMessage(wording, asset, violation, "vibe");
      && IsInfix(violation.candidate.url, message)
      && IsInfix(asset.ipId, message)
      && IsInfix(ClaimLink(asset.ipId), message)
      && IsInfix(ExplorerLink(asset.ipId), message)
  {
    VibeValue(wording, asset, violation, 1);
    VibeValue(wording, asset, violation, 3);
    VibeValue(wording, asset, violation, 5);
    VibeValue(wording, asset, violation, 7);
  }

  /** The casual template does not depend on the asset's metadata (its name in particular), only on the ipId. */
  lemma VibeIgnoresMetadata(wording: Fixed -> string, a: MonitoredAsset, b: MonitoredAsset, violation: Match)
    requires a.ipId == b.ipId
    ensures TemplateMessage(wording, a, violation, "vibe") == TemplateMessage(wording, b, violation, "vibe")
  {
    assert VibeSegments(a, violation) == VibeSegments(b, violation);
  }

  /** Every tone other than "vibe" ("friendly" included) gets the formal template. */
  lemma FormalForOtherTones(wording: Fixed -> string, asset: MonitoredAsset, violation: Match, tone: string)
    requires tone != "vibe"
    ensures TemplateMessage(wording, asset, violation, tone) == TemplateMessage(wording, asset, violation, "formal")
  {
  }

  /** The formal template names the asset and its ipId, the post URL and both links. */
  lemma FormalTemplateContents(wording: Fixed -> string, asset: MonitoredAsset, violation: Match)
    ensures var message := TemplateMessage(wording, asset, violation, "formal");
      && IsInfix(asset.data.name, message)
      && IsInfix(asset.ipId, message)
      && IsInfix(violation.candidate.url, message)
      && IsInfix(ClaimLink(asset.ipId), message)
      && IsInfix(ExplorerLink(asset.ipId), message)
  {
    FormalValue(wording, asset, violation, 1);
    FormalValue(wording, asset, violation, 3);
    FormalValue(wording, asset, violation, 5);
    FormalValue(wording, asset, violation, 7);
    FormalValue(wording, asset, violation, 9);
  }

  /** Under the repository's wording the casual template opens with "yo!". */
  lemma RepositoryVibeOpening(asset: MonitoredAsset, violation: Match)
    ensures "yo!" <= TemplateMessage(FixedText, asset, violation, "vibe")
  {
    var segments := VibeSegments(asset, violation);
    var opening := FixedText(VibeOpening);
    var rest := Render(FixedText, segments[1..]);
    assert Render(FixedText, segments) == opening + rest;
    assert opening[..3] == "yo!";
    assert (opening + rest)[..3] == opening[..3];
  }

  /** Under the repository's wording every other tone's template opens with the salutation. */
  lemma RepositoryFormalOpening(asset: MonitoredAsset, violation: Match, tone: string)
    requires tone != "vibe"
    ensures "Dear Content Creator," <= TemplateMessage(FixedText, asset, violation, tone)
  {
    var segments := FormalSegments(asset, violation);
    var opening := FixedText(FormalOpening);
    var rest := Render(FixedText, segments[1..]);
    assert Render(FixedText, segments) == opening + rest;
    assert opening[..21] == "Dear Content Creator,";
    assert (opening + rest)[..21] == opening[..21];
  }

  // ---------------------------------------------------------------- message generation

  /**
   * What message generation depends on: the wording of the fixed texts (FixedText
   * in the service), whether ABV is configured, the two chat-completion calls
   * (prompt -> reply content, or a failure) and the percentage rendering.
   */
  datatype MessageEnv = MessageEnv(
    wording: Fixed -> string,
    abvConfigured: bool,
    abv: string -> Outcome<string>,
    openai: string -> Outcome<string>,
    formatPercent: real -> string)

  /**
   * generateEnforcementMessage: ABV's trimmed reply when ABV is configured and
   * answers, else OpenAI's trimmed reply when it answers, else the template.
   */
  function GenerateEnforcementMessage(env: MessageEnv, asset: MonitoredAsset, violation: Match, tone: string): string {
    var prompt := BuildPrompt(env.wording, asset, violation, tone, env.formatPercent(violation.similarity));
    if env.abvConfigured && env.abv(prompt).Ok? then Trim(env.abv(prompt).value)
    else if env.openai(prompt).Ok? then Trim(env.openai(prompt).value)
    else TemplateMessage(env.wording, asset, violation, tone)
  }

  /**
   * The order of the chain: an answering ABV makes OpenAI irrelevant; an
   * unconfigured or failing ABV leaves OpenAI in charge; when no model answers the
   * template is used, so a message is always produced.
   */
  lemma MessageFallbackOrder(env: MessageEnv, asset: MonitoredAsset, violation: Match, tone: string,
    other: string -> Outcome<string>)
    ensures var prompt := BuildPrompt(env.wording, asset, violation, tone, env.formatPercent(violation.similarity));
      var message := GenerateEnforcementMessage(env, asset, violation, tone);
      && (env.abvConfigured && env.abv(prompt).Ok? ==>
            message == GenerateEnforcementMessage(env.(openai := other), asset, violation, tone))
      && (!env.abvConfigured || env.abv(prompt).Failed? ==>
            message == GenerateEnforcementMessage(env.(abvConfigured := false), asset, violation, tone))
      && ((!env.abvConfigured || env.abv(prompt).Failed?) && env.openai(prompt).Failed? ==>
            message == TemplateMessage(env.wording, asset, violation, tone))
  {
  }

  /** A model's reply is used without its surrounding whitespace. */
  lemma GeneratedMessageTrimmed(env: MessageEnv, asset: MonitoredAsset, violation: Match, tone: string)
    ensures var prompt := BuildPrompt(env.wording, asset, violation, tone, env.formatPercent(violation.similarity));
      var message := GenerateEnforcementMessage(env, asset, violation, tone);
      && (env.abvConfigured && env.abv(prompt).Ok? ==> exists i :: StrippedAt(env.abv(prompt).value, message, i))
      && (!(env.abvConfigured && env.abv(prompt).Ok?) && env.openai(prompt).Ok? ==>
            exists i :: StrippedAt(env.openai(prompt).value, message, i))
  {
    var prompt := BuildPrompt(env.wording, asset, violation, tone, env.formatPercent(violation.similarity));
    var message := GenerateEnforcementMessage(env, asset, violation, tone);
    if env.abvConfigured && env.abv(prompt).Ok? {
      assert message == Trim(env.abv(prompt).value);
    } else if env.openai(prompt).Ok? {
      assert message == Trim(env.openai(prompt).value);
    }
  }

  // ---------------------------------------------------------------- alerts

  /** The alert payload's text (the Slack blocks carry the same facts and are not modelled). */
  function AlertText(asset: MonitoredAsset, violation: Match, percent: string, disputeId: Option<string>): string {
    "\U{1F6A8} *IP Infringement Detected*\n\nIP: " + asset.data.name
    + "\nPlatform: " + violation.candidate.platform
    + "\nURL: " + violation.candidate.url
    + "\nSimilarity: " + percent
    + "%\nDispute ID: " + (if Truthy(disputeId) then disputeId.value else "N/A")
  }

  /** What became of an alert. */
  datatype AlertDelivery = NoAlert | AlertPosted(webhook: string, text: string) | AlertSwallowed(webhook: string, text: string)

  /**
   * sendAlert: with a webhook configured the alert is posted, and a failed post is
   * logged and swallowed; without one nothing is sent. It never fails.
   */
  function SendAlert(webhook: Option<string>, post: (string, string) -> Outcome<()>, text: string): (d: AlertDelivery)
    ensures !Truthy(webhook) <==> d == NoAlert
    ensures Truthy(webhook) && post(webhook.value, text).Ok? ==> d == AlertPosted(webhook.value, text)
    ensures Truthy(webhook) && post(webhook.value, text).Failed? ==> d == AlertSwallowed(webhook.value, text)
  {
    if !Truthy(webhook) then NoAlert
    else if post(webhook.value, text).Ok? then AlertPosted(webhook.value, text)
    else AlertSwallowed(webhook.value, text)
  }

  // ---------------------------------------------------------------- enforce

  /** The options of enforce; a missing option takes its default. */
  datatype EnforceOptions = EnforceOptions(tone: Option<string>, autoDispute: Option<bool>, sendNotification: Option<bool>)

  /** The evidence handed to the dispute registry. */
  datatype Evidence = Evidence(platform: string, url: string, similarity: real, content: string, screenshot: string)

  /** What the dispute registry answers on success (either field may be absent). */
  datatype DisputeReceipt = DisputeReceipt(disputeId: Option<string>, txHash: Option<string>)

  /** Everything enforce talks to. */
  datatype EnforcementEnv = EnforcementEnv(
    messages: MessageEnv,
    dispute: (string, Evidence) -> Outcome<DisputeReceipt>,
    alertWebhook: Option<string>,
    post: (string, string) -> Outcome<()>)

  /** The result object of enforce (the timestamp is not modelled). */
  datatype EnforceResult =
    | Enforced(message: string, disputeId: Option<string>, disputeTxHash: Option<string>)
    | EnforceFailed(error: string)

  /** The screenshot of the evidence: the candidate's image when it has one, else a placeholder naming the platform. */
  function Screenshot(violation: Match): (s: string)
    ensures s != ""
    ensures Truthy(violation.candidate.imageUrl) ==> s == violation.candidate.imageUrl.value
  {
    if Truthy(violation.candidate.imageUrl) then violation.candidate.imageUrl.value
    else "https://placehold.co/800x600/png?text=" + violation.candidate.platform + "+Evidence"
  }

  function EvidenceOf(violation: Match): Evidence {
    Evidence(violation.candidate.platform, violation.candidate.url, violation.similarity,
      violation.candidate.content, Screenshot(violation))
  }

  /**
   * What enforce promises: tone, autoDispute and sendNotification default to
   * "friendly", true and true. The message is generated with the tone; a dispute is
   * requested only when autoDispute holds, and a failing request fails the whole
   * action before any alert; the alert goes out only when notification is on and a
   * webhook is configured; the result carries the dispute's id and transaction
   * hash, absent when no dispute was made.
   */
  predicate EnforceOutcome(env: EnforcementEnv, asset: MonitoredAsset, violation: Match, options: EnforceOptions,
    result: EnforceResult, alert: AlertDelivery)
  {
    var tone := options.tone.GetOr("friendly");
    var message := GenerateEnforcementMessage(env.messages, asset, violation, tone);
    var disputed := options.autoDispute.GetOr(true);
    var notify := options.sendNotification.GetOr(true);
    var outcome := env.dispute(asset.ipId, EvidenceOf(violation));
    && (disputed && outcome.Failed? ==> result == EnforceFailed(outcome.error) && alert == NoAlert)
    && (!disputed ==> result == Enforced(message, None, None))
    && (disputed && outcome.Ok? ==>
          result == Enforced(message, outcome.value.disputeId, outcome.value.txHash))
    && (alert != NoAlert <==> result.Enforced? && notify && Truthy(env.alertWebhook))
    && (alert != NoAlert ==>
          alert.text == AlertText(asset, violation, env.messages.formatPercent(violation.similarity), result.disputeId))
  }

  /** enforce, step by step: defaults, message, optional dispute, gated alert, result. */
  method Enforce(env: EnforcementEnv, asset: MonitoredAsset, violation: Match, options: EnforceOptions)
    returns (result: EnforceResult, alert: AlertDelivery)
    ensures EnforceOutcome(env, asset, violation, options, result, alert)
  {
    var tone := options.tone.GetOr("friendly");
    var autoDispute := options.autoDispute.GetOr(true);
    var sendNotification := options.sendNotification.GetOr(true);
    var message := GenerateEnforcementMessage(env.messages, asset, violation, tone);
    var disputeResult: Option<DisputeReceipt> := None;
    if autoDispute {
      var outcome := env.dispute(asset.ipId, EvidenceOf(violation));
      if outcome.Failed? {
        return EnforceFailed(outcome.error), NoAlert;
      }
      disputeResult := Some(outcome.value);
    }
    var disputeId := if disputeResult.Some? then disputeResult.value.disputeId else None;
    var disputeTxHash := if disputeResult.Some? then disputeResult.value.txHash else None;
    alert := NoAlert;
    if sendNotification && Truthy(env.alertWebhook) {
      var text := AlertText(asset, violation, env.messages.formatPercent(violation.similarity), disputeId);
      alert := SendAlert(env.alertWebhook, env.post, text);
    }
    result := Enforced(message, disputeId, disputeTxHash);
  }

  // ---------------------------------------------------------------- all tones

  const AllTones: seq<string> := ["friendly", "formal", "vibe"]

  /** generateAllTones: one message per tone, generated in the order friendly, formal, vibe. */
  method GenerateAllTones(env: MessageEnv, asset: MonitoredAsset, violation: Match) returns (messages: map<string, string>)
    ensures forall tone :: tone in messages <==> tone in AllTones
    ensures forall tone :: tone in messages ==> messages[tone] == GenerateEnforcementMessage(env, asset, violation, tone)
  {
    messages := map[];
    for i := 0 to |AllTones|
      invariant forall tone :: tone in messages <==> tone in AllTones[..i]
      invariant forall tone :: tone in messages ==> messages[tone] == GenerateEnforcementMessage(env, asset, violation, tone)
    {
      var tone := AllTones[i];
      assert AllTones[..i + 1] == AllTones[..i] + [tone];
      messages := messages[tone := GenerateEnforcementMessage(env, asset, violation, tone)];
    }
    assert AllTones[..|AllTones|] == AllTones;
  }
}
