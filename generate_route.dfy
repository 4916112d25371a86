/** app/api/generate/route.ts: the generation endpoint. */
module GenerateRoute {
  import opened Wrappers
  import opened JsStrings
  import opened Backends
  import opened AiProviders
  import opened UtilsAiService

  /** The keys of the request body the handler reads. */
  datatype GenerateBody = GenerateBody(
    prompt: Option<string>,
    kind: Option<string>,
    framework: Option<string>,
    provider: Option<string>)

  datatype Body =
    | Generated(code: string, provider: string, framework: string)
    | Failure(error: Option<string>)

  datatype Response = Response(status: int, body: Body)

  const InternalError: Response := Response(500, Failure(Some("Internal server error")))

  /** The options the handler passes to `generateComponent`; `provider` is read from the body but not passed on. */
  function ForwardedOptions(b: GenerateBody): GenerateOptions
    requires b.prompt.Some?
  {
    GenerateOptions(b.prompt.value, Some(b.framework.GetOr("react")), None)
  }

  /** What the generator returns for a body with a prompt: a page for type 'page', else a component. */
  function Generation(b: GenerateBody, env: EnvVars, net: Net): AIResponse
    requires b.prompt.Some?
  {
    if b.kind.GetOr("component") == "page" then Generate(GenerateOptions(PagePrefix + b.prompt.value, None, None), env, net)
    else Generate(ForwardedOptions(b), env, net)
  }

  /**
   * `POST`: 400 without a prompt; otherwise 200 with the generated code, the echoed framework and
   * the name of the provider `initializeProvider` picks, whichever service produced the code.
   * The 500 answer for an unsuccessful generation cannot occur: no provider is forced, so the
   * result comes from the chain or its template fallback, both of which succeed.
   */
  method Post(body: Option<GenerateBody>, env: EnvVars, net: Net) returns (r: Response)
    ensures body.None? ==> r == InternalError
    ensures body.Some? && !Truthy(body.value.prompt) ==> r == Response(400, Failure(Some("Prompt is required")))
    ensures body.Some? && Truthy(body.value.prompt) ==>
              r == Response(200, Generated(Generation(body.value, env, net).code, "OpenRouter", body.value.framework.GetOr("react")))
    ensures r.status == 500 <==> body.None?
  {
    if body.None? {
      return InternalError;
    }
    var b := body.value;
    if !Truthy(b.prompt) {
      return Response(400, Failure(Some("Prompt is required")));
    }
    var activeProvider := InitializeProvider(FreeAiProviders);
    ShippedDefaults();
    var framework := b.framework.GetOr("react");
    var result: AIResponse;
    if b.kind.GetOr("component") == "page" {
      result := GeneratePage(b.prompt.value, env, net);
    } else {
      var attempted;
      result, attempted := GenerateComponent(GenerateOptions(b.prompt.value, Some(framework), None), env, net);
    }
    if result.success {
      r := Response(200, Generated(result.code, activeProvider.name, framework));
    } else {
      r := Response(500, Failure(result.error));
    }
  }

  /** Whatever `provider` the body names, the answer is the same. */
  lemma ProviderIgnored(b: GenerateBody, other: Option<string>, env: EnvVars, net: Net)
    requires b.prompt.Some?
    ensures Generation(b.(provider := other), env, net) == Generation(b, env, net)
  {
  }
}
