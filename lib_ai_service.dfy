/**
 * lib/ai-service.ts: the generator used by the home page. Four services are tried in a fixed
 * order; the first successful reply whose extracted code is longer than 50 characters is
 * returned, and otherwise a keyword-routed template is.
 */
module LibAiService {
  import opened Wrappers
  import opened JsStrings
  import opened CodeMatch
  import opened Backends
  import opened Seqs

  /** The request; framework, style and mode only shape the prompt sent over the network. */
  datatype GenerationRequest = GenerationRequest(
    prompt: string,
    framework: Option<string>,
    style: Option<string>,
    mode: Option<string>)

  datatype GenerationResponse = GenerationResponse(
    success: bool,
    code: string,
    error: Option<string>,
    provider: Option<string>)

  datatype Provider = OpenRouter | Anthropic | Groq | Gemini

  /** The order in which `generateComponent` tries the services. */
  const Chain: seq<Provider> := [OpenRouter, Anthropic, Groq, Gemini]

  /** Extracted code must be longer than this for a reply to be accepted. */
  const MinCodeLength: nat := 50

  function Name(p: Provider): string {
    match p
    case OpenRouter => "OpenRouter"
    case Anthropic => "Anthropic"
    case Groq => "Groq"
    case Gemini => "Gemini"
  }

  /** Whether the service's credential is configured (OpenRouter accepts either of two variables). */
  predicate HasKey(p: Provider, env: EnvVars) {
    match p
    case OpenRouter => env.openRouterApiKey || env.publicOpenRouterKey
    case Anthropic => env.anthropicApiKey
    case Groq => env.groqApiKey
    case Gemini => env.googleApiKey
  }

  function OutcomeOf(p: Provider, net: Net): NetOutcome {
    match p
    case OpenRouter => net.openRouter
    case Anthropic => net.anthropic
    case Groq => net.groq
    case Gemini => net.gemini
  }

  /**
   * `extractCode`: the group of the first fenced block, else of the first <code>…</code>
   * region, else the whole reply; trimmed in every case.
   */
  function ExtractCode(content: string): (r: string)
    ensures NoEdgeWhitespace(r)
    ensures ((forall c :: !FenceCandidate(content, c)) && (forall c :: !TagCandidate(content, "<code>", "</code>", c)))
              ==> r == Trim(content)
  {
    FenceMatchIsFirstCandidate(content);
    TagMatchIsFirstCandidate(content, "<code>", "</code>");
    match FenceMatch(content)
    case Some(m) => Trim(content[m.bodyStart..m.bodyEnd])
    case None =>
      match TagMatch(content, "<code>", "</code>")
      case Some(m) => Trim(content[m.bodyStart..m.bodyEnd])
      case None => Trim(content)
  }

  /**
   * A fenced block wins: the result is the trimmed group of the candidate the regular
   * expression reports first, whether or not a <code> region is present too.
   */
  lemma ExtractCodePrefersFence(content: string, c: Match)
    requires FenceCandidate(content, c)
    ensures exists m :: FenceCandidate(content, m)
                     && (forall d :: FenceCandidate(content, d) ==> Preferred(m, d))
                     && ExtractCode(content) == Trim(content[m.bodyStart..m.bodyEnd])
  {
    FenceMatchIsFirstCandidate(content);
    var m := FenceMatch(content).value;
    assert FenceCandidate(content, m);
  }

  /** With no fenced block, the first <code> region is used. */
  lemma ExtractCodeFallsBackToTag(content: string, c: Match)
    requires forall d :: !FenceCandidate(content, d)
    requires TagCandidate(content, "<code>", "</code>", c)
    ensures exists m :: TagCandidate(content, "<code>", "</code>", m)
                     && (forall d :: TagCandidate(content, "<code>", "</code>", d) ==> Preferred(m, d))
                     && ExtractCode(content) == Trim(content[m.bodyStart..m.bodyEnd])
  {
    FenceMatchIsFirstCandidate(content);
    TagMatchIsFirstCandidate(content, "<code>", "</code>");
    var m := TagMatch(content, "<code>", "</code>").value;
    assert TagCandidate(content, "<code>", "</code>", m);
  }

  /**
   * Round trip: code with no backtick, wrapped in a fence with a word-character language tag
   * and a newline, is extracted as the trimmed code.
   */
  lemma FenceRoundTrip(tag: string, code: string)
    requires forall k :: 0 <= k < |tag| ==> IsWordChar(tag[k])
    requires '`' !in code
    ensures ExtractCode(Fence + tag + "\n" + code + Fence) == Trim(code)
  {
    var s := Fence + tag + "\n" + code + Fence;
    WrappedMatch(s, tag, code);
    var b := |tag| + 4;
    assert s[b..b + |code|] == code;
  }

  /** The documented example: a tsx fence around "const x = 1;" and a newline yields exactly that line. */
  lemma ExtractCodeExample(line: string)
    requires line == "const x = 1;"
    ensures ExtractCode(Fence + "tsx\n" + line + "\n" + Fence) == line
  {
    assert Fence + "tsx\n" + line + "\n" + Fence == Fence + "tsx" + "\n" + (line + "\n") + Fence;
    FenceRoundTrip("tsx", line + "\n");
    TrimExampleLine(line);
  }

  lemma TrimExampleLine(line: string)
    requires line == "const x = 1;"
    ensures Trim(line + "\n") == line
  {
    var body := line + "\n";
    assert !IsWhitespace(body[0]);
    assert SkipForward(body, 0) == 0;
    assert !IsWhitespace(body[|body| - 2]);
    assert SkipBackward(body, |body| - 1) == |body| - 1;
    assert SkipBackward(body, |body|) == |body| - 1;
    assert body[0..|body| - 1] == line;
  }

  /** `tryOpenRouter`, `tryAnthropic`, `tryGroq`, `tryGemini`, with the HTTP exchange given as `net`. */
  function TryProvider(p: Provider, env: EnvVars, net: Net): (r: GenerationResponse)
    ensures !r.success ==> r.code == "" && r.error.Some? && r.provider.None?
    ensures r.success <==> HasKey(p, env) && OutcomeOf(p, net).Reply?
    ensures r.success ==> r.code == ExtractCode(OutcomeOf(p, net).content) && r.provider == Some(Name(p))
  {
    if !HasKey(p, env) then GenerationResponse(false, "", Some("No API key"), None)
    else
      match OutcomeOf(p, net)
      case HttpError(body) => GenerationResponse(false, "", Some(Name(p) + ": " + body), None)
      case Thrown(msg) => GenerationResponse(false, "", Some(Name(p) + " error: " + msg), None)
      case Reply(content) => GenerationResponse(true, ExtractCode(content), None, Some(Name(p)))
  }

  /** A service without its credential fails with "No API key" whatever the network would have said. */
  lemma MissingKeySkipsNetwork(p: Provider, env: EnvVars, net1: Net, net2: Net)
    requires !HasKey(p, env)
    ensures TryProvider(p, env, net1) == TryProvider(p, env, net2)
    ensures TryProvider(p, env, net1) == GenerationResponse(false, "", Some("No API key"), None)
  {
  }

  /** The acceptance test of the loop: success and more than 50 characters of code. */
  predicate Qualifies(r: GenerationResponse) {
    r.success && |r.code| > MinCodeLength
  }

  /** Index in `Chain`, at or after `from`, of the first service whose result qualifies. */
  function FirstQualifying(env: EnvVars, net: Net, from: nat): (r: Option<nat>)
    ensures r.Some? ==> from <= r.value < |Chain| && Qualifies(TryProvider(Chain[r.value], env, net))
    ensures r.Some? ==> forall j :: from <= j < r.value ==> !Qualifies(TryProvider(Chain[j], env, net))
    ensures r.None? ==> forall j :: from <= j < |Chain| ==> !Qualifies(TryProvider(Chain[j], env, net))
    decreases |Chain| - from
  {
    if from >= |Chain| then None
    else if Qualifies(TryProvider(Chain[from], env, net)) then Some(from)
    else
      var r := FirstQualifying(env, net, from + 1);
      assert !Qualifies(TryProvider(Chain[from], env, net));
      r
  }

  /** What `generateComponent` returns. */
  function Generate(req: GenerationRequest, env: EnvVars, net: Net): GenerationResponse {
    match FirstQualifying(env, net, 0)
    case Some(i) => TryProvider(Chain[i], env, net)
    case None => GenerateFallback(req)
  }

  /**
   * `generateComponent`: call the services in order and stop at the first qualifying result.
   * `attempted` lists the services whose `try*` function was called, in call order.
   */
  method GenerateComponent(req: GenerationRequest, env: EnvVars, net: Net)
    returns (r: GenerationResponse, attempted: seq<Provider>)
    ensures 1 <= |attempted| <= |Chain| && attempted == Chain[..|attempted|]
    ensures FirstQualifying(env, net, 0).Some? ==>
              |attempted| == FirstQualifying(env, net, 0).value + 1 && r == TryProvider(Chain[|attempted| - 1], env, net)
    ensures FirstQualifying(env, net, 0).None? ==> attempted == Chain && r == GenerateFallback(req)
    ensures r == Generate(req, env, net)
    ensures r.success && |r.code| > 0
  {
    attempted := [];
    var i := 0;
    while i < |Chain|
      invariant 0 <= i <= |Chain|
      invariant attempted == Chain[..i]
      invariant forall j :: 0 <= j < i ==> !Qualifies(TryProvider(Chain[j], env, net))
    {
      var result := TryProvider(Chain[i], env, net);
      assert Chain[..i + 1] == Chain[..i] + [Chain[i]];
      attempted := attempted + [Chain[i]];
      if Qualifies(result) {
        GenerateStopsAt(req, env, net, i);
        return result, attempted;
      }
      i := i + 1;
    }
    assert Chain[..|Chain|] == Chain;
    GenerateFallsBack(req, env, net);
    FallbackSucceeds(req);
    r := GenerateFallback(req);
  }

  /** When every service before `i` fails the test and `i` passes it, the search from `from` finds `i`. */
  lemma {:induction false} FirstQualifyingFrom(env: EnvVars, net: Net, from: nat, i: nat)
    requires from <= i < |Chain|
    requires forall j :: from <= j < i ==> !Qualifies(TryProvider(Chain[j], env, net))
    requires Qualifies(TryProvider(Chain[i], env, net))
    ensures FirstQualifying(env, net, from) == Some(i)
    decreases i - from
  {
    if from < i {
      FirstQualifyingFrom(env, net, from + 1, i);
    }
  }

  /** The first qualifying result is the one returned: the services after it are never consulted. */
  lemma GenerateStopsAt(req: GenerationRequest, env: EnvVars, net: Net, i: nat)
    requires i < |Chain|
    requires forall j :: 0 <= j < i ==> !Qualifies(TryProvider(Chain[j], env, net))
    requires Qualifies(TryProvider(Chain[i], env, net))
    ensures Generate(req, env, net) == TryProvider(Chain[i], env, net)
  {
    FirstQualifyingFrom(env, net, 0, i);
  }

  /** When no service qualifies, the keyword template is returned. */
  lemma GenerateFallsBack(req: GenerationRequest, env: EnvVars, net: Net)
    requires forall j :: 0 <= j < |Chain| ==> !Qualifies(TryProvider(Chain[j], env, net))
    ensures Generate(req, env, net) == GenerateFallback(req)
  {
  }

  /** With no credential configured, the result is always the keyword template. */
  lemma NoKeysMeansFallback(req: GenerationRequest, env: EnvVars, net: Net)
    requires forall p :: !HasKey(p, env)
    ensures Generate(req, env, net) == GenerateFallback(req)
  {
    assert !Qualifies(TryProvider(Chain[0], env, net));
    assert !Qualifies(TryProvider(Chain[1], env, net));
    assert !Qualifies(TryProvider(Chain[2], env, net));
    assert !Qualifies(TryProvider(Chain[3], env, net));
  }

  // ---- Keyword template fallback -------------------------------------------------------

  datatype FallbackKind = ButtonFallback | CardFallback | FormFallback | DefaultFallback

  /** First match wins, on the lower-cased prompt: button, then card/box, then form/input. */
  function FallbackKindOf(prompt: string): FallbackKind {
    var lower := ToLower(prompt);
    if Includes(lower, "button") then ButtonFallback
    else if Includes(lower, "card") || Includes(lower, "box") then CardFallback
    else if Includes(lower, "form") || Includes(lower, "input") then FormFallback
    else DefaultFallback
  }

  // The template bodies are abbreviated; the text around the one interpolation is kept.
  const ButtonTemplate: string :=
    "import React from 'react';\n\ninterface ButtonProps { … }\n\nexport default function Button({ … }: ButtonProps) { … }"
  const CardTemplate: string :=
    "import React from 'react';\n\ninterface CardProps { … }\n\nexport default function Card({ title, description, children, footer }: CardProps) { … }"
  const FormTemplate: string :=
    "import React, { useState } from 'react';\n\ninterface FormData { … }\n\nexport default function Form() { … }"
  const DefaultTemplateHead: string :=
    "import React, { useState } from 'react';\n\nexport default function GeneratedComponent() {\n  …\n      <p className=\"text-gray-600 mb-4\">Based on: \""
  const DefaultTemplateTail: string :=
    "\"</p>\n  …\n}"

  /** `generateFallback`. */
  function GenerateFallback(req: GenerationRequest): (r: GenerationResponse)
    ensures r.error.None? && r.provider.None?
  {
    var code := match FallbackKindOf(req.prompt)
      case ButtonFallback => ButtonTemplate
      case CardFallback => CardTemplate
      case FormFallback => FormTemplate
      case DefaultFallback => DefaultTemplateHead + req.prompt + DefaultTemplateTail;
    GenerationResponse(true, code, None, None)
  }

  /** The fallback is total and always succeeds with non-empty code. */
  lemma FallbackSucceeds(req: GenerationRequest)
    ensures GenerateFallback(req).success && |GenerateFallback(req).code| > 0
  {
  }

  /** The routing, spelt out: each template is chosen exactly when no earlier keyword matched. */
  lemma FallbackPriority(prompt: string)
    ensures var lower := ToLower(prompt);
      && (FallbackKindOf(prompt) == ButtonFallback <==> Includes(lower, "button"))
      && (FallbackKindOf(prompt) == CardFallback <==>
            !Includes(lower, "button") && (Includes(lower, "card") || Includes(lower, "box")))
      && (FallbackKindOf(prompt) == FormFallback <==>
            !Includes(lower, "button") && !Includes(lower, "card") && !Includes(lower, "box")
            && (Includes(lower, "form") || Includes(lower, "input")))
      && (FallbackKindOf(prompt) == DefaultFallback <==>
            !Includes(lower, "button") && !Includes(lower, "card") && !Includes(lower, "box")
            && !Includes(lower, "form") && !Includes(lower, "input"))
  {
  }

  /** Routing ignores case: a prompt and its lower-cased form get the same template. */
  lemma FallbackIgnoresCase(prompt: string)
    ensures FallbackKindOf(ToLower(prompt)) == FallbackKindOf(prompt)
  {
    ToLowerIdempotent(prompt);
  }

  /** Only the default template embeds the prompt; the other three are constants. */
  lemma FallbackPromptUse(req1: GenerationRequest, req2: GenerationRequest)
    ensures FallbackKindOf(req1.prompt) == DefaultFallback ==> Includes(GenerateFallback(req1).code, req1.prompt)
    ensures (FallbackKindOf(req1.prompt) == FallbackKindOf(req2.prompt) != DefaultFallback) ==>
              GenerateFallback(req1).code == GenerateFallback(req2).code
  {
    IncludesMiddle(DefaultTemplateHead, req1.prompt, DefaultTemplateTail);
  }

  // ---- Configured services -------------------------------------------------------------

  /** Position of a service name in `Chain`. */
  function ChainRank(name: string): nat {
    if name == "OpenRouter" then 0 else if name == "Anthropic" then 1
    else if name == "Groq" then 2 else if name == "Gemini" then 3 else 4
  }

  /** `getAvailableProviders`: the names of the services whose credential is configured, in `Chain` order. */
  function GetAvailableProviders(env: EnvVars): (names: seq<string>)
    ensures forall p :: Name(p) in names <==> HasKey(p, env)
  {
    (if HasKey(OpenRouter, env) then ["OpenRouter"] else [])
    + (if HasKey(Anthropic, env) then ["Anthropic"] else [])
    + (if HasKey(Groq, env) then ["Groq"] else [])
    + (if HasKey(Gemini, env) then ["Gemini"] else [])
  }

  /** The positions of the four service names. */
  lemma RankFacts()
    ensures ChainRank("OpenRouter") == 0 && ChainRank("Anthropic") == 1
    ensures ChainRank("Groq") == 2 && ChainRank("Gemini") == 3
  {
  }

  /** The list follows `Chain` order, so no service is listed twice. */
  lemma AvailableInChainOrder(env: EnvVars)
    ensures RankedIn(GetAvailableProviders(env), ChainRank, 0, |Chain|)
  {
    var a := if HasKey(OpenRouter, env) then ["OpenRouter"] else [];
    var b := if HasKey(Anthropic, env) then ["Anthropic"] else [];
    var c := if HasKey(Groq, env) then ["Groq"] else [];
    var d := if HasKey(Gemini, env) then ["Gemini"] else [];
    RankFacts();
    assert RankedIn(a, ChainRank, 0, 1) && RankedIn(b, ChainRank, 1, 2);
    assert RankedIn(c, ChainRank, 2, 3) && RankedIn(d, ChainRank, 3, 4);
    RankedConcat(a, b, ChainRank, 0, 1, 2);
    RankedConcat(a + b, c, ChainRank, 0, 2, 3);
    RankedConcat(a + b + c, d, ChainRank, 0, 3, 4);
  }

  /** A service missing from the list is exactly one whose attempt ends with "No API key". */
  lemma AvailableMeansAttempted(p: Provider, env: EnvVars, net: Net)
    ensures (Name(p) !in GetAvailableProviders(env)) <==>
              TryProvider(p, env, net).error == Some("No API key")
  {
    match OutcomeOf(p, net)
    case HttpError(body) =>
      assert (Name(p) + ": " + body)[0] == Name(p)[0] != 'N';
    case Thrown(msg) =>
      assert (Name(p) + " error: " + msg)[0] == Name(p)[0] != 'N';
    case Reply(_) =>
  }
}
