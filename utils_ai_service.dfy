/**
 * utils/ai-service.ts: the generator behind the /api/generate route. A caller may force one
 * service by name; otherwise four services are tried in order and the first successful,
 * non-empty result wins, with a keyword-routed template as the last resort.
 */
module UtilsAiService {
  import opened Wrappers
  import opened JsStrings
  import opened CodeMatch
  import opened Backends
  import opened Seqs

  datatype AIResponse = AIResponse(success: bool, code: string, error: Option<string>)

  /** `framework` is accepted but does not influence generation. */
  datatype GenerateOptions = GenerateOptions(prompt: string, framework: Option<string>, provider: Option<string>)

  datatype Provider = OpenRouter | Anthropic | Gemini | HuggingFace

  /** The order of the fallback chain. */
  const Chain: seq<Provider> := [OpenRouter, Anthropic, Gemini, HuggingFace]

  /** The name a caller uses to force a service. */
  function Name(p: Provider): string {
    match p
    case OpenRouter => "openrouter"
    case Anthropic => "anthropic"
    case Gemini => "gemini"
    case HuggingFace => "huggingface"
  }

  predicate HasKey(p: Provider, env: EnvVars) {
    match p
    case OpenRouter => env.openRouterApiKey
    case Anthropic => env.anthropicApiKey
    case Gemini => env.googleApiKey
    case HuggingFace => env.huggingFaceApiKey
  }

  function OutcomeOf(p: Provider, net: Net): NetOutcome {
    match p
    case OpenRouter => net.openRouter
    case Anthropic => net.anthropic
    case Gemini => net.gemini
    case HuggingFace => net.huggingFace
  }

  /** OpenRouter and Gemini replies: the group of the first fenced block, else the whole reply; trimmed. */
  function ExtractFenced(content: string): (r: string)
    ensures NoEdgeWhitespace(r)
    ensures (forall c :: !FenceCandidate(content, c)) ==> r == Trim(content)
  {
    FenceMatchIsFirstCandidate(content);
    match FenceMatch(content)
    case Some(m) => Trim(content[m.bodyStart..m.bodyEnd])
    case None => Trim(content)
  }

  /** A fenced block is used whenever there is one: the candidate the regular expression reports first. */
  lemma ExtractFencedTakesFirstBlock(content: string, c: Match)
    requires FenceCandidate(content, c)
    ensures exists m :: FenceCandidate(content, m)
                     && (forall d :: FenceCandidate(content, d) ==> Preferred(m, d))
                     && ExtractFenced(content) == Trim(content[m.bodyStart..m.bodyEnd])
  {
    FenceMatchIsFirstCandidate(content);
    var m := FenceMatch(content).value;
    assert FenceCandidate(content, m);
  }

  const GeneratedOpen: string := "<generated_code>"
  const GeneratedClose: string := "</generated_code>"

  /** Anthropic replies: the first <generated_code>…</generated_code> region, else the whole reply; trimmed. */
  function ExtractGeneratedCode(content: string): (r: string)
    ensures NoEdgeWhitespace(r)
    ensures (forall c :: !TagCandidate(content, GeneratedOpen, GeneratedClose, c)) ==> r == Trim(content)
  {
    TagMatchIsFirstCandidate(content, GeneratedOpen, GeneratedClose);
    match TagMatch(content, GeneratedOpen, GeneratedClose)
    case Some(m) => Trim(content[m.bodyStart..m.bodyEnd])
    case None => Trim(content)
  }

  /** A tagged region is used whenever there is one: the candidate the regular expression reports first. */
  lemma ExtractGeneratedCodeTakesFirstRegion(content: string, c: Match)
    requires TagCandidate(content, GeneratedOpen, GeneratedClose, c)
    ensures exists m :: TagCandidate(content, GeneratedOpen, GeneratedClose, m)
                     && (forall d :: TagCandidate(content, GeneratedOpen, GeneratedClose, d) ==> Preferred(m, d))
                     && ExtractGeneratedCode(content) == Trim(content[m.bodyStart..m.bodyEnd])
  {
    TagMatchIsFirstCandidate(content, GeneratedOpen, GeneratedClose);
    var m := TagMatch(content, GeneratedOpen, GeneratedClose).value;
    assert TagCandidate(content, GeneratedOpen, GeneratedClose, m);
  }

  /** Round trip: code without '<', wrapped in the tags, is extracted as the trimmed code. */
  lemma GeneratedCodeRoundTrip(code: string)
    requires '<' !in code
    ensures ExtractGeneratedCode(GeneratedOpen + code + GeneratedClose) == Trim(code)
  {
    var s := GeneratedOpen + code + GeneratedClose;
    var b := |GeneratedOpen|;
    OpenTagFirst(code);
    CloseTagAfterCode(code);
    assert TagMatch(s, GeneratedOpen, GeneratedClose) == Some(Match(0, b, b + |code|));
    assert s[b..b + |code|] == code;
  }

  lemma OpenTagFirst(code: string)
    ensures IndexOfFrom(GeneratedOpen + code + GeneratedClose, GeneratedOpen, 0) == Some(0)
  {
    var s := GeneratedOpen + code + GeneratedClose;
    assert s[..|GeneratedOpen|] == GeneratedOpen;
  }

  lemma CloseTagAfterCode(code: string)
    requires '<' !in code
    ensures IndexOfFrom(GeneratedOpen + code + GeneratedClose, GeneratedClose, |GeneratedOpen|)
            == Some(|GeneratedOpen| + |code|)
  {
    var s := GeneratedOpen + code + GeneratedClose;
    var close := |GeneratedOpen| + |code|;
    OccursAtEnd(GeneratedOpen + code, GeneratedClose);
    NoCloseTagInCode(code);
    IndexOfFirst(s, GeneratedClose, |GeneratedOpen|, close);
  }

  lemma NoCloseTagInCode(code: string)
    requires '<' !in code
    ensures forall k :: |GeneratedOpen| <= k < |GeneratedOpen| + |code| ==>
              !OccursAt(GeneratedOpen + code + GeneratedClose, GeneratedClose, k)
  {
    var s := GeneratedOpen + code + GeneratedClose;
    var b := |GeneratedOpen|;
    forall k | b <= k < b + |code|
      ensures !OccursAt(s, GeneratedClose, k)
    {
      assert s[k] == code[k - b];
      if k + |GeneratedClose| <= |s| {
        assert s[k..k + |GeneratedClose|][0] == s[k];
      }
    }
  }

  /** The variable each service's missing-credential message names. */
  function KeyVariable(p: Provider): string {
    match p
    case OpenRouter => "OPENROUTER_API_KEY"
    case Anthropic => "ANTHROPIC_API_KEY"
    case Gemini => "GOOGLE_API_KEY"
    case HuggingFace => "HUGGINGFACE_API_KEY"
  }

  function Label(p: Provider): string {
    match p
    case OpenRouter => "OpenRouter"
    case Anthropic => "Anthropic"
    case Gemini => "Gemini"
    case HuggingFace => "HuggingFace"
  }

  /**
   * `callOpenRouter`, `callAnthropic`, `callGemini`, `callHuggingFace`, with the HTTP exchange
   * given as `net`. HuggingFace's generated text is returned without extraction or trimming.
   */
  function CallProvider(p: Provider, env: EnvVars, net: Net): (r: AIResponse)
    ensures !HasKey(p, env) ==> r == AIResponse(false, "", Some(KeyVariable(p) + " not configured"))
    ensures r.success <==> HasKey(p, env) && OutcomeOf(p, net).Reply?
    ensures !r.success ==> r.code == "" && r.error.Some?
    ensures r.success && p != HuggingFace ==> NoEdgeWhitespace(r.code)
    ensures r.success && (p == OpenRouter || p == Gemini) ==> r.code == ExtractFenced(OutcomeOf(p, net).content)
    ensures r.success && p == Anthropic ==> r.code == ExtractGeneratedCode(OutcomeOf(p, net).content)
    ensures r.success && p == HuggingFace ==> r.code == OutcomeOf(p, net).content
  {
    if !HasKey(p, env) then AIResponse(false, "", Some(KeyVariable(p) + " not configured"))
    else
      match OutcomeOf(p, net)
      case HttpError(body) => AIResponse(false, "", Some(Label(p) + " API error: " + body))
      case Thrown(msg) => AIResponse(false, "", Some(Label(p) + " error: " + msg))
      case Reply(content) =>
        match p
        case OpenRouter => AIResponse(true, ExtractFenced(content), None)
        case Anthropic => AIResponse(true, ExtractGeneratedCode(content), None)
        case Gemini => AIResponse(true, ExtractFenced(content), None)
        case HuggingFace => AIResponse(true, content, None)
  }

  /** `providers.find(p => p.name === name)`. */
  function Named(name: string): (r: Option<Provider>)
    ensures forall p :: Name(p) == name <==> r == Some(p)
  {
    if name == "openrouter" then Some(OpenRouter)
    else if name == "anthropic" then Some(Anthropic)
    else if name == "gemini" then Some(Gemini)
    else if name == "huggingface" then Some(HuggingFace)
    else None
  }

  /** The service a call is forced to: only a non-empty `provider` naming a known service counts. */
  function ForcedProvider(provider: Option<string>): Option<Provider> {
    if Truthy(provider) then Named(provider.value) else None
  }

  /** The acceptance test of the chain: success and non-empty code. */
  predicate Usable(r: AIResponse) {
    r.success && r.code != ""
  }

  /** Index in `Chain`, at or after `from`, of the first service whose result is usable. */
  function FirstUsable(env: EnvVars, net: Net, from: nat): (r: Option<nat>)
    ensures r.Some? ==> from <= r.value < |Chain| && Usable(CallProvider(Chain[r.value], env, net))
    ensures r.Some? ==> forall j :: from <= j < r.value ==> !Usable(CallProvider(Chain[j], env, net))
    ensures r.None? ==> forall j :: from <= j < |Chain| ==> !Usable(CallProvider(Chain[j], env, net))
    decreases |Chain| - from
  {
    if from >= |Chain| then None
    else if Usable(CallProvider(Chain[from], env, net)) then Some(from)
    else FirstUsable(env, net, from + 1)
  }

  /** What `generateComponent` returns. */
  function Generate(options: GenerateOptions, env: EnvVars, net: Net): AIResponse {
    match ForcedProvider(options.provider)
    case Some(p) => CallProvider(p, env, net)
    case None =>
      match FirstUsable(env, net, 0)
      case Some(i) => CallProvider(Chain[i], env, net)
      case None => TemplateBasedGeneration(options.prompt)
  }

  /**
   * `generateComponent`: a forced service's result is returned as it is; otherwise the services
   * are called in order until one is usable. `attempted` lists the services called.
   */
  method GenerateComponent(options: GenerateOptions, env: EnvVars, net: Net)
    returns (r: AIResponse, attempted: seq<Provider>)
    ensures r == Generate(options, env, net)
    ensures ForcedProvider(options.provider).Some? ==>
              var p := ForcedProvider(options.provider).value;
              attempted == [p] && r == CallProvider(p, env, net)
    ensures ForcedProvider(options.provider).None? ==>
              1 <= |attempted| <= |Chain| && attempted == Chain[..|attempted|] && Usable(r)
    ensures ForcedProvider(options.provider).None? && FirstUsable(env, net, 0).Some? ==>
              |attempted| == FirstUsable(env, net, 0).value + 1 && r == CallProvider(Chain[|attempted| - 1], env, net)
    ensures ForcedProvider(options.provider).None? && FirstUsable(env, net, 0).None? ==>
              attempted == Chain && r == TemplateBasedGeneration(options.prompt)
  {
    if Truthy(options.provider) {
      var selected := Named(options.provider.value);
      if selected.Some? {
        r := CallProvider(selected.value, env, net);
        attempted := [selected.value];
        return;
      }
    }
    r, attempted := RunChain(options.prompt, env, net);
  }

  /** The unforced path of `generateComponent`: the services in order, then the template. */
  method RunChain(prompt: string, env: EnvVars, net: Net) returns (r: AIResponse, attempted: seq<Provider>)
    ensures 1 <= |attempted| <= |Chain| && attempted == Chain[..|attempted|] && Usable(r)
    ensures FirstUsable(env, net, 0).Some? ==>
              |attempted| == FirstUsable(env, net, 0).value + 1 && r == CallProvider(Chain[|attempted| - 1], env, net)
    ensures FirstUsable(env, net, 0).None? ==> attempted == Chain && r == TemplateBasedGeneration(prompt)
  {
    attempted := [];
    var i := 0;
    while i < |Chain|
      invariant 0 <= i <= |Chain|
      invariant attempted == Chain[..i]
      invariant FirstUsable(env, net, i) == FirstUsable(env, net, 0)
    {
      var result := CallProvider(Chain[i], env, net);
      assert Chain[..i + 1] == Chain[..i] + [Chain[i]];
      attempted := attempted + [Chain[i]];
      if Usable(result) {
        return result, attempted;
      }
      i := i + 1;
    }
    assert Chain[..|Chain|] == Chain;
    TemplateAlwaysSucceeds(prompt);
    r := TemplateBasedGeneration(prompt);
  }

  /** A provider name that names no service is ignored: the chain runs as if none were given. */
  lemma UnknownProviderFallsThrough(prompt: string, framework: Option<string>, name: string, env: EnvVars, net: Net)
    requires forall p :: Name(p) != name
    ensures Generate(GenerateOptions(prompt, framework, Some(name)), env, net)
            == Generate(GenerateOptions(prompt, framework, None), env, net)
  {
  }

  /** Without a forced service the result is always successful with non-empty code. */
  lemma ChainAlwaysUsable(options: GenerateOptions, env: EnvVars, net: Net)
    requires ForcedProvider(options.provider).None?
    ensures Usable(Generate(options, env, net))
  {
    TemplateAlwaysSucceeds(options.prompt);
  }

  /**
   * A forced service is returned even when it succeeds with nothing: a blank OpenRouter
   * reply yields success with empty code, and no fallback runs.
   */
  lemma ForcedProviderMayBeEmpty(options: GenerateOptions, env: EnvVars, net: Net)
    requires options.provider == Some("openrouter") && env.openRouterApiKey
    requires net.openRouter.Reply? && AllWhitespace(net.openRouter.content)
    ensures Generate(options, env, net) == AIResponse(true, "", None)
  {
    var content := net.openRouter.content;
    assert ForcedProvider(options.provider) == Some(OpenRouter);
    forall i: nat
      ensures !OccursAt(content, Fence, i)
    {
      if i + |Fence| <= |content| {
        assert content[i..i + |Fence|][0] == content[i];
      }
    }
    TrimAllWhitespace(content);
    assert ExtractFenced(content) == "";
  }

  /** With no credential configured and no forced service, the template is returned. */
  lemma NoKeysMeansTemplate(options: GenerateOptions, env: EnvVars, net: Net)
    requires ForcedProvider(options.provider).None?
    requires forall p :: !HasKey(p, env)
    ensures Generate(options, env, net) == TemplateBasedGeneration(options.prompt)
  {
    assert !Usable(CallProvider(Chain[0], env, net));
    assert !Usable(CallProvider(Chain[1], env, net));
    assert !Usable(CallProvider(Chain[2], env, net));
    assert !Usable(CallProvider(Chain[3], env, net));
  }

  /** The sentence `generatePage` puts before the prompt. */
  const PagePrefix: string := "Generate a complete React page with navigation, hero section, and content for: "

  /** `generatePage`: the chain, on the prompt with a fixed request for a full page in front, never forced. */
  method GeneratePage(prompt: string, env: EnvVars, net: Net) returns (r: AIResponse)
    ensures r == Generate(GenerateOptions(PagePrefix + prompt, None, None), env, net)
    ensures Usable(r)
  {
    var attempted;
    r, attempted := GenerateComponent(GenerateOptions(PagePrefix + prompt, None, None), env, net);
  }

  // ---- Template-based generation -------------------------------------------------------

  datatype TemplateKind = ButtonTemplate | CardTemplate | FormTemplate | NavbarTemplate | DefaultTemplate

  /** First match wins, on the lower-cased prompt: button, card, form/input, navbar/navigation. */
  function TemplateKindOf(prompt: string): TemplateKind {
    var lower := ToLower(prompt);
    if Includes(lower, "button") then ButtonTemplate
    else if Includes(lower, "card") then CardTemplate
    else if Includes(lower, "form") || Includes(lower, "input") then FormTemplate
    else if Includes(lower, "navbar") || Includes(lower, "navigation") then NavbarTemplate
    else DefaultTemplate
  }

  // The template bodies are abbreviated; the text around each interpolation is kept. The
  // button template contains the literal text {prompt}: it is not an interpolation.
  const ButtonCode: string :=
    "import { Button } from \"@/components/ui/button\";\n\nconst GeneratedButton = () => {\n  …\n      {prompt}\n  …\n};\n\nexport default GeneratedButton;"
  const CardHead: string :=
    "import { Card, CardContent, CardHeader, CardTitle } from \"@/components/ui/card\";\n\nconst GeneratedCard = () => {\n  …\n        <p>Component generated from: \""
  const CardTail: string := "\"</p>\n  …\n};\n\nexport default GeneratedCard;"
  const FormHead: string :=
    "import { useState } from \"react\";\n…\nconst GeneratedForm = () => {\n  …\n          placeholder=\""
  const FormTail: string := "\"\n  …\n};\n\nexport default GeneratedForm;"
  const NavbarCode: string :=
    "'use client';\n\nimport { useState } from \"react\";\n…\nconst GeneratedNavbar = () => {\n  …\n};\n\nexport default GeneratedNavbar;"
  const DefaultHead: string :=
    "import { useState } from \"react\";\nimport { Card, CardContent } from \"@/components/ui/card\";\n\nconst GeneratedComponent = () => {\n  …\n        <p className=\"text-gray-600 mb-4\">Prompt: \""
  const DefaultTail: string := "\"</p>\n  …\n};\n\nexport default GeneratedComponent;"

  /** `templateBasedGeneration`. */
  function TemplateBasedGeneration(prompt: string): (r: AIResponse)
    ensures r.error.None?
  {
    var code := match TemplateKindOf(prompt)
      case ButtonTemplate => ButtonCode
      case CardTemplate => CardHead + prompt + CardTail
      case FormTemplate => FormHead + prompt + FormTail
      case NavbarTemplate => NavbarCode
      case DefaultTemplate => DefaultHead + prompt + DefaultTail;
    AIResponse(true, code, None)
  }

  /** The template path is total and always succeeds with non-empty code. */
  lemma TemplateAlwaysSucceeds(prompt: string)
    ensures Usable(TemplateBasedGeneration(prompt))
  {
  }

  /** The routing, spelt out: each template is chosen exactly when no earlier keyword matched. */
  lemma TemplatePriority(prompt: string)
    ensures var lower := ToLower(prompt);
      && (TemplateKindOf(prompt) == ButtonTemplate <==> Includes(lower, "button"))
      && (TemplateKindOf(prompt) == CardTemplate <==> !Includes(lower, "button") && Includes(lower, "card"))
      && (TemplateKindOf(prompt) == FormTemplate <==>
            !Includes(lower, "button") && !Includes(lower, "card")
            && (Includes(lower, "form") || Includes(lower, "input")))
      && (TemplateKindOf(prompt) == NavbarTemplate <==>
            !Includes(lower, "button") && !Includes(lower, "card")
            && !Includes(lower, "form") && !Includes(lower, "input")
            && (Includes(lower, "navbar") || Includes(lower, "navigation")))
      && (TemplateKindOf(prompt) == DefaultTemplate <==>
            !Includes(lower, "button") && !Includes(lower, "card")
            && !Includes(lower, "form") && !Includes(lower, "input")
            && !Includes(lower, "navbar") && !Includes(lower, "navigation"))
  {
  }

  /** Routing ignores case. */
  lemma TemplateIgnoresCase(prompt: string)
    ensures TemplateKindOf(ToLower(prompt)) == TemplateKindOf(prompt)
  {
    ToLowerIdempotent(prompt);
  }

  /**
   * The card, form and default templates embed the prompt as the caller wrote it (not
   * lower-cased); the button and navbar templates are the same for every prompt.
   */
  lemma TemplatePromptUse(prompt: string, other: string)
    ensures TemplateKindOf(prompt) in {CardTemplate, FormTemplate, DefaultTemplate} ==>
              Includes(TemplateBasedGeneration(prompt).code, prompt)
    ensures TemplateKindOf(prompt) == TemplateKindOf(other) && TemplateKindOf(prompt) in {ButtonTemplate, NavbarTemplate} ==>
              TemplateBasedGeneration(prompt).code == TemplateBasedGeneration(other).code
  {
    IncludesMiddle(CardHead, prompt, CardTail);
    IncludesMiddle(FormHead, prompt, FormTail);
    IncludesMiddle(DefaultHead, prompt, DefaultTail);
  }

  // ---- Configured services -------------------------------------------------------------

  /** Position of a service name in `Chain`. */
  function ChainRank(name: string): nat {
    if name == "openrouter" then 0 else if name == "anthropic" then 1
    else if name == "gemini" then 2 else if name == "huggingface" then 3 else 4
  }

  /** `getConfiguredProviders`: the names of the services with a credential, in `Chain` order. */
  function GetConfiguredProviders(env: EnvVars): (names: seq<string>)
    ensures forall p :: Name(p) in names <==> HasKey(p, env)
  {
    (if HasKey(OpenRouter, env) then ["openrouter"] else [])
    + (if HasKey(Anthropic, env) then ["anthropic"] else [])
    + (if HasKey(Gemini, env) then ["gemini"] else [])
    + (if HasKey(HuggingFace, env) then ["huggingface"] else [])
  }

  /** The positions of the four service names. */
  lemma RankFacts()
    ensures ChainRank("openrouter") == 0 && ChainRank("anthropic") == 1
    ensures ChainRank("gemini") == 2 && ChainRank("huggingface") == 3
  {
  }

  /** A name listed only when its service is configured sits at that service's rank. */
  lemma OptionalRanked(present: bool, name: string, rank: nat)
    requires ChainRank(name) == rank
    ensures RankedIn(if present then [name] else [], ChainRank, rank, rank + 1)
  {
  }

  /** Four runs at ranks 0, 1, 2 and 3, joined in that order, are in rank order. */
  lemma RankedFour(a: seq<string>, b: seq<string>, c: seq<string>, d: seq<string>)
    requires RankedIn(a, ChainRank, 0, 1) && RankedIn(b, ChainRank, 1, 2)
    requires RankedIn(c, ChainRank, 2, 3) && RankedIn(d, ChainRank, 3, 4)
    ensures RankedIn(a + b + c + d, ChainRank, 0, 4)
  {
    RankedConcat(a, b, ChainRank, 0, 1, 2);
    RankedConcat(a + b, c, ChainRank, 0, 2, 3);
    RankedConcat(a + b + c, d, ChainRank, 0, 3, 4);
  }

  /** The list follows `Chain` order, so no service is listed twice. */
  lemma ConfiguredInChainOrder(env: EnvVars)
    ensures RankedIn(GetConfiguredProviders(env), ChainRank, 0, |Chain|)
  {
    var a := if HasKey(OpenRouter, env) then ["openrouter"] else [];
    var b := if HasKey(Anthropic, env) then ["anthropic"] else [];
    var c := if HasKey(Gemini, env) then ["gemini"] else [];
    var d := if HasKey(HuggingFace, env) then ["huggingface"] else [];
    RankFacts();
    OptionalRanked(HasKey(OpenRouter, env), "openrouter", 0);
    OptionalRanked(HasKey(Anthropic, env), "anthropic", 1);
    OptionalRanked(HasKey(Gemini, env), "gemini", 2);
    OptionalRanked(HasKey(HuggingFace, env), "huggingface", 3);
    RankedFour(a, b, c, d);
  }

  /** A service is listed exactly when its call gets past the credential check. */
  lemma ConfiguredMeansCalled(p: Provider, env: EnvVars, net: Net)
    ensures (Name(p) in GetConfiguredProviders(env)) <==>
              CallProvider(p, env, net).error != Some(KeyVariable(p) + " not configured")
  {
    match OutcomeOf(p, net)
    case HttpError(body) =>
      assert (Label(p) + " API error: " + body)[1] == Label(p)[1] != KeyVariable(p)[1];
    case Thrown(msg) =>
      assert (Label(p) + " error: " + msg)[1] == Label(p)[1] != KeyVariable(p)[1];
    case Reply(_) =>
  }
}
