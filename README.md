# FreeV generator core, modelled in Dafny

FreeV turns a natural-language prompt into the source text of a UI component. This project
models the logic behind that in Dafny and proves properties of it:

- **the two generators** (`lib/ai-service.ts`, `utils/ai-service.ts`):
  - A chain of text-generation services is tried in a fixed order.
  - Code is extracted from each reply with a regular expression.
  - A result is accepted when it passes a quality test.
  - When no service's result passes, a keyword-routed template is returned.
- **the provider registry** (`config/ai-providers.ts`): the table of free services and the
  process-wide active provider.
- **the project store** (`utils/project-manager.ts`): a list of projects. Each project holds
  components. The list is read, changed and written back by each operation.
- **the template library** (`utils/template-library.ts`): a two-level table of template sources
  and its lookup.
- **the component generator** (`utils/component-generator.ts`): source text for a component
  chosen by a type tag and filled in from loosely typed props.
- **the HTTP handlers** under `app/api/projects`, `app/api/templates` and `app/api/generate`.

Modules follow the source files:

| module | source file |
|---|---|
| `LibAiService` | `lib/ai-service.ts` |
| `UtilsAiService` | `utils/ai-service.ts` |
| `AiProviders` | `config/ai-providers.ts` |
| `ProjectManager` | `utils/project-manager.ts` |
| `TemplateLibrary` | `utils/template-library.ts` |
| `ComponentGenerator` | `utils/component-generator.ts` |
| `ProjectsRoute`, `TemplatesRoute`, `GenerateRoute` | the three route files |

Helper modules:

- `Wrappers`: `Option`, standing in for `undefined`.
- `JsStrings`: the JavaScript string primitives the code calls (`trim`, `\s`, `\w`,
  `toLowerCase`, `includes`, `indexOf`, truthiness, `JSON.stringify` of a string).
- `Seqs`: `Array.prototype.find` and `filter`.
- `CodeMatch`: the regular expressions, written as delimiter searches. Each is proved to
  return the match a backtracking matcher reports first.
- `Backends`: what the generators see of the outside world.

The outside world is given to the model as values:

- which credential variables are set, as booleans in `EnvVars`;
- what each service answers, in `Net`. An answer is a reply text, an HTTP error body or a
  thrown message;
- the ids and timestamps the project store draws from `Date.now()` and `Math.random()`, as
  parameters.

The project store and the provider registry change state in place. They are classes whose
methods state the whole new state. The two `generateComponent` loops and the HTML form's
`forEach` loop are methods with loops, each proved equal to a specification function.

## Model

| member | source | states |
|---|---|---|
| CodeMatch.FenceMatchIsFirstCandidate | lib/ai-service.ts:191-192 | The delimiter search for /```[\w]*\n?([\s\S]*?)```/ returns a match that is preferred to every other way the pattern can match: leftmost, then greedy language tag, then lazy body. It returns nothing exactly when no match exists. |
| CodeMatch.TagMatchIsFirstCandidate | lib/ai-service.ts:195-196 | The search for /<code>([\s\S]*?)<\/code>/ returns the first opening tag with the nearest closing tag after it. That is the preferred match, and nothing is returned only when no match exists. |
| CodeMatch.WordRunEnd | lib/ai-service.ts:191 | `[\w]*` consumes a maximal run: every character it covers is a word character, and the next one is not. |
| JsStrings.SkipForward | lib/ai-service.ts:198 | The start of the trimmed piece: everything before it, from the given position, is whitespace, and the character there is not. |
| JsStrings.SkipBackward | lib/ai-service.ts:198 | The end of the trimmed piece: everything after it, up to the given position, is whitespace, and the character before it is not. |
| JsStrings.Trim | lib/ai-service.ts:198 | `trim` leaves no whitespace at either edge of its result. |
| JsStrings.TrimCuts | lib/ai-service.ts:198 | The trimmed text is a contiguous piece of the input, and everything cut off on either side is whitespace. |
| JsStrings.TrimNoEdge | utils/ai-service.ts:96 | Text without edge whitespace is left unchanged by `trim`. |
| JsStrings.TrimAllWhitespace | utils/ai-service.ts:96 | A blank text trims to the empty string. |
| JsStrings.TrimIdempotent | utils/ai-service.ts:96 | Trimming twice is trimming once. |
| JsStrings.ToLowerIdempotent | lib/ai-service.ts:224 | Lower-casing twice is lower-casing once, so routing on a lower-cased prompt ignores case. |
| JsStrings.Includes | lib/ai-service.ts:226 | `includes` is true exactly when the pattern occurs at some position. |
| JsStrings.IndexOfFrom | lib/ai-service.ts:191 | Returns the first occurrence at or after the start position, or nothing when there is none. |
| JsStrings.RemoveWhitespace | utils/component-generator.ts:94 | `replace(/\s+/g, '')` leaves no whitespace and keeps exactly the non-whitespace characters. A single character is dropped when it is whitespace and kept otherwise. |
| JsStrings.RemoveWhitespaceAppend | utils/component-generator.ts:94 | Removing whitespace from a concatenation is concatenating the results. With the one-character case, this fixes the result: the kept characters stay in order, repeats included. |
| JsStrings.RemoveWhitespaceKeepsPlain | utils/component-generator.ts:94 | Text without whitespace is left unchanged. |
| JsStrings.RemoveWhitespaceJoinsWords | utils/component-generator.ts:94 | Two words separated by a space come out joined. |
| JsStrings.JsonQuote | utils/component-generator.ts:64 | `JSON.stringify` of a string is a double-quoted literal at least two characters longer than the string. |
| JsStrings.EscapeAppend | utils/component-generator.ts:64 | Escaping a concatenation is concatenating the escapes, so each character is escaped on its own and in order. |
| JsStrings.EscapeKeepsPlain | utils/component-generator.ts:64 | Characters other than '"', '\\' and control characters are written unchanged. |
| JsStrings.JsonQuotePlain | utils/component-generator.ts:64 | Text without '"', '\\' or control characters is emitted as that text between two double quotes. |
| Seqs.Find | config/ai-providers.ts:47 | `find` returns the first element passing the test, and nothing exactly when no element passes. |
| Seqs.Filter | utils/project-manager.ts:86 | `filter` keeps exactly the elements passing the test. The result is never longer, and it is as long as the input exactly when all pass. |
| Seqs.FilterAppend | utils/project-manager.ts:181-185 | Filtering a concatenation is concatenating the filtered parts, so order is kept. |
| Seqs.FilterIdempotent | utils/project-manager.ts:86 | Filtering twice by the same test is filtering once. |
| LibAiService.ExtractCode | lib/ai-service.ts:189-199 | The result never has edge whitespace. With neither a fenced block nor a `<code>` region it is the trimmed reply. |
| LibAiService.ExtractCodePrefersFence | lib/ai-service.ts:191-192 | When any fenced block exists, the result is the trimmed group of the preferred fence match, whether or not a `<code>` region exists too. |
| LibAiService.ExtractCodeFallsBackToTag | lib/ai-service.ts:194-196 | With no fenced block and some `<code>` region, the result is the trimmed group of the preferred tag match. |
| CodeMatch.WrappedMatch | lib/ai-service.ts:191-192 | For code without a backtick, wrapped in a fence with a word-character tag and a newline, the preferred match opens at 0 and its group is exactly the code. |
| LibAiService.FenceRoundTrip | lib/ai-service.ts:189-192 | Code without a backtick, wrapped in a fence with a word-character language tag and a newline, is extracted as the trimmed code. |
| LibAiService.ExtractCodeExample | lib/ai-service.ts:189-192 | A tsx fence around "const x = 1;" and a newline extracts exactly "const x = 1;". |
| LibAiService.TryProvider | lib/ai-service.ts:19-186 | A call succeeds exactly when the credential is set and the service replies. A missing credential gives the error "No API key" without touching the network. A failure has empty code, an error and no provider. A success carries the service name and the extracted code. |
| LibAiService.MissingKeySkipsNetwork | lib/ai-service.ts:22 | Without a credential, the result does not depend on what the network would answer. |
| LibAiService.FirstQualifying | lib/ai-service.ts:211-216 | Returns the index of the first service in chain order whose result succeeds with code longer than 50 characters. Every earlier service fails that test, and nothing is returned exactly when all fail it. |
| LibAiService.GenerateComponent | lib/ai-service.ts:201-220 | The services are called in chain order, stopping at the first result with success and code longer than 50 characters, which is returned. Every earlier result fails that test. When all fail, every service was called and the keyword template is returned. The response always succeeds with non-empty code. |
| LibAiService.FirstQualifyingFrom | lib/ai-service.ts:211-216 | If every service before position i fails the test and service i passes it, the search finds i. |
| LibAiService.GenerateStopsAt | lib/ai-service.ts:211-216 | When every service before position i fails the test and service i passes it, service i's result is returned and the later services do not matter. |
| LibAiService.GenerateFallsBack | lib/ai-service.ts:218-219 | When every service fails the test, the keyword template is returned. |
| LibAiService.NoKeysMeansFallback | lib/ai-service.ts:218-219 | With no credential configured, the result is the keyword template. |
| LibAiService.GenerateFallback | lib/ai-service.ts:222-423 | The template response carries neither an error nor a provider. |
| LibAiService.FallbackSucceeds | lib/ai-service.ts:222-423 | The template path always succeeds with non-empty code. |
| LibAiService.FallbackPriority | lib/ai-service.ts:224-302 | Each template is chosen exactly when its keywords occur in the lower-cased prompt and no earlier keyword does: button, then card or box, then form or input, else the default. |
| LibAiService.FallbackIgnoresCase | lib/ai-service.ts:224 | A prompt and its lower-cased form get the same template. |
| LibAiService.FallbackPromptUse | lib/ai-service.ts:399-423 | The default template contains the prompt as written. Two prompts routed to the same other template get identical code. |
| LibAiService.GetAvailableProviders | lib/ai-service.ts:426-433 | A service is listed exactly when its credential is set, with OpenRouter accepting either variable. |
| LibAiService.AvailableInChainOrder | lib/ai-service.ts:428-432 | The list follows chain order (OpenRouter, Anthropic, Groq, Gemini) strictly, so no service is listed twice. |
| LibAiService.AvailableMeansAttempted | lib/ai-service.ts:426-433 | A service is missing from the list exactly when trying it ends with "No API key". |
| UtilsAiService.ExtractFenced | utils/ai-service.ts:93-96 | The OpenRouter and Gemini extraction has no edge whitespace. With no fenced block it is the trimmed reply. |
| UtilsAiService.ExtractFencedTakesFirstBlock | utils/ai-service.ts:214-217 | When a fenced block exists, the trimmed group of the preferred match is returned. |
| UtilsAiService.ExtractGeneratedCode | utils/ai-service.ts:171-174 | The Anthropic extraction has no edge whitespace. With no `<generated_code>` region it is the trimmed reply. |
| UtilsAiService.ExtractGeneratedCodeTakesFirstRegion | utils/ai-service.ts:171-174 | When a region exists, the trimmed group of the preferred match is returned. |
| UtilsAiService.GeneratedCodeRoundTrip | utils/ai-service.ts:171-174 | Code without '<', wrapped in the generated_code tags, is extracted as the trimmed code. |
| UtilsAiService.CallProvider | utils/ai-service.ts:34-221 | A missing credential gives "<VARIABLE> not configured". A call succeeds exactly when the credential is set and the service replies, and a failure has empty code and an error. A successful OpenRouter or Gemini call returns `ExtractFenced` of the reply, and a successful Anthropic call returns `ExtractGeneratedCode` of the reply, so the code has no edge whitespace. HuggingFace's text is returned untouched. |
| UtilsAiService.Named | utils/ai-service.ts:237 | The name lookup finds a service exactly when the service carries that name. |
| UtilsAiService.FirstUsable | utils/ai-service.ts:244-249 | Returns the first service in chain order whose result succeeds with non-empty code, and nothing exactly when none does. |
| UtilsAiService.GenerateComponent | utils/ai-service.ts:223-253 | A non-empty provider naming a service calls only that service and returns its result as it is. Otherwise the services are called in chain order until one result is usable, and every earlier one is not. When none is usable, all were called and the template is returned. Without a forced service the result is always usable. |
| UtilsAiService.RunChain | utils/ai-service.ts:243-252 | The services are called in chain order up to and including the first usable result, which is returned. When none is usable, all four are called and the template is returned. The result is always usable. |
| UtilsAiService.UnknownProviderFallsThrough | utils/ai-service.ts:236-241 | A provider name that names no service is ignored: the result equals that of a call with no provider. |
| UtilsAiService.ChainAlwaysUsable | utils/ai-service.ts:243-252 | Without a forced service the result succeeds with non-empty code. |
| UtilsAiService.ForcedProviderMayBeEmpty | utils/ai-service.ts:236-240 | A forced OpenRouter call whose reply is blank returns success with empty code, and no fallback runs. |
| UtilsAiService.NoKeysMeansTemplate | utils/ai-service.ts:251-252 | With no credential and no forced service, the template is returned. |
| UtilsAiService.GeneratePage | utils/ai-service.ts:256-259 | A page is the unforced chain run on the prompt with the fixed page request in front, and it is always usable. |
| UtilsAiService.TemplateBasedGeneration | utils/ai-service.ts:262-383 | The template response carries no error. |
| UtilsAiService.TemplateAlwaysSucceeds | utils/ai-service.ts:382 | The template path always succeeds with non-empty code. |
| UtilsAiService.TemplatePriority | utils/ai-service.ts:263-358 | Each template is chosen exactly when its keywords occur in the lower-cased prompt and no earlier keyword does: button, card, form or input, navbar or navigation, else the default. |
| UtilsAiService.TemplateIgnoresCase | utils/ai-service.ts:263 | A prompt and its lower-cased form get the same template. |
| UtilsAiService.TemplatePromptUse | utils/ai-service.ts:279-368 | The card, form and default templates contain the prompt as written. The button and navbar templates are the same for every prompt. |
| UtilsAiService.GetConfiguredProviders | utils/ai-service.ts:386-393 | A service is listed exactly when its credential is set. |
| UtilsAiService.ConfiguredInChainOrder | utils/ai-service.ts:388-391 | The list follows chain order (openrouter, anthropic, gemini, huggingface) strictly, so no service is listed twice. |
| Seqs.RankedConcat | utils/ai-service.ts:388-391 | Appending a list strictly ordered by rank within one range to another within the next range keeps the whole list strictly ordered, which is how the pushes keep chain order. |
| UtilsAiService.ConfiguredMeansCalled | utils/ai-service.ts:386-393 | A service is listed exactly when calling it gets past the credential check. |
| AiProviders.InitialActive | config/ai-providers.ts:47 | The starting provider is the first enabled entry, or the first entry when none is enabled. |
| AiProviders.InitializeProvider | config/ai-providers.ts:69-75 | The result is enabled. When some entry is enabled, it is the first enabled entry of the table. Otherwise it is the mock provider. When the mock is not itself in the table, the mock comes back only when no entry is enabled. |
| AiProviders.InitializeAgreesWithInitial | config/ai-providers.ts:47-75 | Whenever some entry is enabled, initialization picks the provider that starts out active. |
| AiProviders.ShippedDefaults | config/ai-providers.ts:13-47 | For the shipped table both choices are the OpenRouter entry. |
| AiProviders.SetActiveStep | config/ai-providers.ts:53-60 | When an enabled entry has the name, the new active provider is such an entry. Otherwise the active provider is unchanged. |
| AiProviders.SetActiveIdempotent | config/ai-providers.ts:53-60 | Switching to the same name twice leaves the same state as switching once. |
| AiProviders.MockIsNotSelectable | config/ai-providers.ts:54-66 | The mock provider's name is in no table entry, so selecting it by name changes nothing. |
| AiProviders.ProviderRegistry.constructor | config/ai-providers.ts:47 | At module load the active provider is the first enabled entry of the shipped table. |
| AiProviders.ProviderRegistry.GetActiveProvider | config/ai-providers.ts:49-51 | Returns the active provider and changes nothing. |
| AiProviders.ProviderRegistry.SetActiveProvider | config/ai-providers.ts:53-60 | Returns true exactly when an enabled entry carries the name, and then that entry becomes active. Otherwise the state is unchanged. |
| ProjectManager.Merge | utils/project-manager.ts:73-77 | The merged project always carries the new timestamp. An update carrying no field other than `updatedAt` changes only the timestamp. An id in the update replaces the project's id, and without one the id is kept. |
| ProjectManager.MergeProperties | utils/project-manager.ts:73-77 | An empty update only refreshes `updatedAt`. Applying an update twice equals applying it once. The refreshed timestamp wins over one in the update. |
| ProjectManager.FindIndex | utils/project-manager.ts:69 | `findIndex` returns the first position with the id, or nothing exactly when no project has it. |
| ProjectManager.FindIndexFirst | utils/project-manager.ts:69 | A position holding the id, with no earlier position holding it, is the one `findIndex` returns. |
| ProjectManager.UpdateMatching | utils/project-manager.ts:127-129 | The list keeps its length. Components with the id are merged with the update, and the others are kept as they were. |
| ProjectManager.Search | utils/project-manager.ts:177-186 | A project is returned exactly when it is stored and its name, description or a component name contains the lower-cased query. The result is never longer than the store. |
| ProjectManager.SearchEmptyQuery | utils/project-manager.ts:179-185 | The empty query returns every project. |
| ProjectManager.SearchIgnoresQueryCase | utils/project-manager.ts:179 | The query's case does not change the result. |
| ProjectManager.SearchKeepsOrder | utils/project-manager.ts:181-185 | Searching a concatenated list is concatenating the searches, so results keep stored order. |
| ProjectManager.SavedIsFound | utils/project-manager.ts:50-64 | After a project is appended under a fresh id, looking that id up finds it at the end. |
| ProjectManager.DeleteProperties | utils/project-manager.ts:84-92 | Deleting keeps exactly the projects with another id, and a lookup of the id then misses. A second delete changes nothing, and deleting an absent id changes nothing. |
| ProjectManager.ProjectStore.constructor | utils/project-manager.ts:24-41 | A fresh store holds no projects. |
| ProjectManager.ProjectStore.GetProject | utils/project-manager.ts:44-47 | Returns the first stored project with the id, or nothing exactly when none has it. |
| ProjectManager.ProjectStore.SearchProjects | utils/project-manager.ts:177-186 | Returns exactly the stored projects matching the lower-cased query, and all of them for the empty query. |
| ProjectManager.ProjectStore.SaveProject | utils/project-manager.ts:50-64 | Appends one project with the draft's fields, the new id and both timestamps set to now, and returns it. |
| ProjectManager.ProjectStore.UpdateProject | utils/project-manager.ts:67-81 | An unknown id returns nothing and changes nothing. Otherwise the first project with the id is replaced by the merge with a fresh timestamp, which is returned. Every other position is unchanged. |
| ProjectManager.ProjectStore.DeleteProject | utils/project-manager.ts:84-92 | Returns true exactly when some project had the id. Then every such project is removed and the rest keep their order. Otherwise nothing changes. Afterwards no project has the id. |
| ProjectManager.ProjectStore.AddComponentToProject | utils/project-manager.ts:95-107 | An unknown project id changes nothing. Otherwise the component with the new id is appended to that project's components, its timestamp is refreshed, and nothing else changes. |
| ProjectManager.ProjectStore.RemoveComponentFromProject | utils/project-manager.ts:110-116 | An unknown project id changes nothing. Otherwise every component with the id is dropped from that project, the others keep their order, and its timestamp is refreshed. |
| ProjectManager.ProjectStore.UpdateComponent | utils/project-manager.ts:119-132 | An unknown project id changes nothing. Otherwise every component with the id in that project is merged with the update, and its timestamp is refreshed. |
| ProjectManager.ProjectStore.CloneProject | utils/project-manager.ts:165-174 | An unknown project id changes nothing. Otherwise a copy is appended under the new id: the name gains " (Copy)" and the description is kept. Each component is kept except for a new id, and both timestamps are now. |
| TemplateLibrary.LibraryWellFormed | utils/template-library.ts:4-492 | No key repeats at either level, and every template text is non-empty. |
| TemplateLibrary.LibraryShape | utils/template-library.ts:4-492 | The table has six categories (buttons, cards, forms, navigation, hero, dashboard) with 3, 3, 2, 2, 2 and 1 templates. |
| TemplateLibrary.FindCategory | utils/template-library.ts:495 | An own-key category lookup finds a listed category with that name, and nothing exactly when none is listed. |
| TemplateLibrary.FindTemplate | utils/template-library.ts:497 | An own-key template lookup finds the text of a listed template with that name, and nothing exactly when none is listed. |
| TemplateLibrary.CategoryAt | utils/template-library.ts:495 | With unique category names, a listed category is the one the lookup finds. |
| TemplateLibrary.TemplateAt | utils/template-library.ts:497 | With unique template names, a listed template is the one the lookup finds. |
| TemplateLibrary.GetTemplate | utils/template-library.ts:494-498 | The corrected lookup gives '' for an unlisted category. A non-empty result is the text of a template found under the name in the category found. |
| TemplateLibrary.GetTemplateHitsListedPairs | utils/template-library.ts:494-498 | The corrected lookup is non-empty exactly for the listed (category, template) pairs, and then yields that template's text. |
| TemplateLibrary.PrimaryButtonExample | utils/template-library.ts:5-16 | ("buttons", "primary") yields the PrimaryButton source. |
| TemplateLibrary.GetTemplateMisses | utils/template-library.ts:496-497 | An unknown category, or an unknown template in a known category, yields ''. |
| TemplateLibrary.GetAllTemplates | utils/template-library.ts:500 | Returns the table itself. |
| TemplateLibrary.CategoryAsWritten | utils/template-library.ts:495-496 | The bracket lookup as written yields an own entry exactly when the category is listed. |
| TemplateLibrary.TemplateEntryAsWritten | utils/template-library.ts:497 | The second bracket lookup as written yields an inherited built-in exactly when the template is not listed and its name is an Object.prototype member. A listed template yields its text. |
| TemplateLibrary.GetTemplateAsWritten | utils/template-library.ts:494-498 | `getTemplate` as written never yields undefined. In a listed category and for a template name that is not inherited, it agrees with the corrected lookup. An unlisted, non-inherited category gives ''. |
| TemplateLibrary.InheritedNamesAreFound | utils/template-library.ts:494-498 | "constructor" is not a category, yet the lookup as written finds something truthy for it. In the buttons category, template "constructor" yields a built-in function rather than ''. The corrected lookup returns ''. |
| ComponentGenerator.SizeClass | utils/component-generator.ts:44 | The HTML button's size class is 'sm' or 'lg' when the size is one of those, and 'base' for anything else. |
| ComponentGenerator.Button | utils/component-generator.ts:40-70 | The button source is non-empty. The HTML button starts with markup. The React button starts with its import and ends by exporting the capitalised variant plus "Button". |
| ComponentGenerator.ReactButtonName | utils/component-generator.ts:41-69 | Without a variant, the React button is exported as "PrimaryButton". |
| ComponentGenerator.HtmlButtonSize | utils/component-generator.ts:41-47 | The HTML button contains its size class and its text, with 'md' and 'Button' for absent keys. |
| ComponentGenerator.CardName | utils/component-generator.ts:94 | The React card's name has no whitespace. It keeps exactly the title's non-whitespace characters, or is "GeneratedCard" when the title is falsy. The order of the kept characters is fixed by the lemmas below. |
| ComponentGenerator.Card | utils/component-generator.ts:72-112 | The card source is non-empty. The HTML card starts with markup. The React card starts with its import and ends by exporting `CardName` of the title. |
| ComponentGenerator.CardNameJoinsWords | utils/component-generator.ts:94 | A title of two words separated by a space names the card by the words with their whitespace removed, joined in order. |
| ComponentGenerator.CardNameOfPlainWords | utils/component-generator.ts:94 | Two words without whitespace, separated by a space, name the card by the two words joined. |
| ComponentGenerator.CardNameExample | utils/component-generator.ts:94 | The title "My Card" names the component "MyCard". |
| ComponentGenerator.HtmlFieldMarkup | utils/component-generator.ts:119-147 | A field adds HTML markup exactly when its type (default 'text') is text, email, password or textarea. |
| ComponentGenerator.ReactFieldMarkup | utils/component-generator.ts:180-210 | A field maps to React markup exactly when its type (default 'text') is text, email, password or textarea. |
| ComponentGenerator.MissingTypeIsText | utils/component-generator.ts:120-121 | A field without a type renders as a text field in both frameworks. |
| ComponentGenerator.JoinedAppend | utils/component-generator.ts:119-147 | The markup of concatenated field lists is the concatenation of their markups, so field order is kept. |
| ComponentGenerator.JoinedSkipsSilentFields | utils/component-generator.ts:119-147 | Dropping the fields that render nothing beforehand does not change the output. |
| ComponentGenerator.FormFieldsFiltered | utils/component-generator.ts:114-220 | Both renderings contain exactly the markup of the text, email, password and textarea fields, in order. |
| ComponentGenerator.Form | utils/component-generator.ts:114-220 | The form source is non-empty. It starts with markup for HTML and with an import otherwise. |
| ComponentGenerator.HtmlFormFields | utils/component-generator.ts:118-147 | The `forEach` loop accumulates each field's markup in field order. |
| ComponentGenerator.GenerateForm | utils/component-generator.ts:114-220 | The generated form is the HTML form around the accumulated field markup, or the React form over the fields. |
| ComponentGenerator.Fixed | utils/component-generator.ts:222-503 | Each fixed generator's source starts with an import and ends by exporting its component. |
| ComponentGenerator.Generic | utils/component-generator.ts:505-519 | The generic source starts with a comment line. |
| ComponentGenerator.GenericEmbedsType | utils/component-generator.ts:505-519 | The generic component contains the type tag, the props' JSON text and "Generated " plus the capitalised tag. |
| ComponentGenerator.KindOf | utils/component-generator.ts:14-37 | A tag reaches the default case exactly when it is none of the ten named types. |
| ComponentGenerator.Dispatch | utils/component-generator.ts:14-37 | Every case produces non-empty source, and the output starts with a comment exactly when the switch reaches its default case. |
| ComponentGenerator.GenerateSpecificComponent | utils/component-generator.ts:11-38 | Dispatch on the type tag, with absent props and framework taken as `{}` and 'react'. |
| ComponentGenerator.GenericIffUnknownType | utils/component-generator.ts:14-37 | The output starts with a comment, which only the generic generator writes, exactly when the tag is none of the ten named types. |
| ComponentGenerator.Defaults | utils/component-generator.ts:12 | Absent props, children and framework behave as `{}`, '' and 'react'. |
| ComponentGenerator.ConstantOutputs | utils/component-generator.ts:21-34 | The seven fixed generators ignore props and framework. |
| ProjectsRoute.Get | app/api/projects/route.ts:11-37 | GET answers 200 with the list. Without a search it is every project. With a search it is exactly those whose name or description contains the lower-cased query. |
| ProjectsRoute.GetWithinSearch | app/api/projects/route.ts:18-24 | Everything GET lists for a query, the store's search returns too. |
| ProjectsRoute.GetMissesComponentMatches | app/api/projects/route.ts:18-24 | The converse fails: a project matching only through a component name is found by the store's search but not listed by GET. |
| ProjectsRoute.Post | app/api/projects/route.ts:39-67 | An unparsable body gives 500 and a missing name 400, both with no change. Otherwise exactly one project is appended (description '' and components [] when absent) and answered 201. |
| ProjectsRoute.Put | app/api/projects/route.ts:69-100 | An unparsable body gives 500, a missing id 400 and an unknown id 404, with no change. Otherwise the first project with the id is merged and answered 200. |
| ProjectsRoute.Delete | app/api/projects/route.ts:102-134 | A missing id gives 400, and an id no project has gives 404, both with no change. Otherwise every project with the id is removed and the answer is 200. |
| TemplatesRoute.Counts | app/api/templates/route.ts:43-46 | The listing gives every category's name and template count, in table order. |
| TemplatesRoute.Get | app/api/templates/route.ts:5-52 | The corrected route, which reads only the table's own keys. The status is 200 or 404. A category and template pair gives 200 with `{ code }` exactly when the lookup is non-empty, and otherwise 404 "Template not found". A category alone gives 200 with that category's templates exactly when it is listed, and otherwise 404 "Category not found". Without a category, the answer is the listing. |
| TemplatesRoute.TemplateWithoutCategoryIgnored | app/api/templates/route.ts:11-40 | A template parameter without a non-empty category is ignored. |
| TemplatesRoute.CategoryListing | app/api/templates/route.ts:40-51 | The listing is the six categories with 3, 3, 2, 2, 2 and 1 templates. |
| TemplatesRoute.PairLookup | app/api/templates/route.ts:11-18 | A listed pair is answered 200 with that template's text. |
| TemplatesRoute.InheritedCategoryNotFound | app/api/templates/route.ts:11-39 | The corrected route answers 404 for "constructor" as a category, and for "constructor" as a template of "buttons". The source as written answers 200 for both (see the next two rows). |
| TemplatesRoute.GetAsWritten | app/api/templates/route.ts:5-52 | The route as written answers 200 or 404. Without a category it gives the same listing as the corrected route. |
| TemplatesRoute.AsWrittenAgreesOffPrototype | app/api/templates/route.ts:11-39 | When neither parameter is a name inherited from Object.prototype, the route as written and the corrected route give the same answer. |
| TemplatesRoute.InheritedCategoryFound | app/api/templates/route.ts:25-33 | As written, `?category=constructor` is answered 200 with the inherited built-in in place of templates. |
| TemplatesRoute.InheritedTemplateFound | app/api/templates/route.ts:11-18 | As written, `?category=buttons&template=constructor` is answered 200 with the inherited built-in in place of code. |
| GenerateRoute.Post | app/api/generate/route.ts:6-50 | An unparsable body gives 500 and a falsy prompt 400. Otherwise the answer is 200 with the generated code, framework (default 'react') and provider "OpenRouter", whichever service produced the code. In the model, the answer is 500 exactly when the body is unparsable. |
| GenerateRoute.ProviderIgnored | app/api/generate/route.ts:9-25 | The body's `provider` never changes the result, because it is not passed on. |

## Left out

- HTTP request shapes, headers, URLs, model names and prompt wording are not modelled. Each
  service call is reduced to its outcome (reply text, error body or thrown message), given as
  an input.
- Environment variables are booleans: set and non-empty, or not.
- HuggingFace's `Array.isArray` envelope handling is folded into the given reply text. In the source, `|| ''` applies only to the
  non-array branch, so an array reply whose first element has no `generated_text` succeeds with `code` undefined. The model
  has no undefined code and does not capture that case.
- `localStorage`, `Date` and `Math.random` are not modelled: the stored list is a field, and
  ids and timestamps are parameters.
- The server-side branch of `getProjects` (no `window`, so `[]`) and a throwing
  `localStorage.setItem` are environment behaviour. They are not modelled.
- `exportProject` and `importProject` are not modelled: they are `JSON.stringify` and
  `JSON.parse` of whole projects, and JSON encoding and parsing are outside this model.
- In the route handlers, the only exception modelled is a body that is not valid JSON,
  answered 500. Other thrown exceptions are not modelled.
- The regular expressions are modelled only for the patterns the code uses, not as a general
  engine.
- Template and component sources are abbreviated with "…". Only the parts that depend on the
  inputs are kept verbatim, so lengths of the fixed text are not faithful.
- LibAiService.GenerateComponent: the test "code longer than 50 characters" counts Dafny
  characters (code points), whereas JavaScript counts UTF-16 code units.
- `toLowerCase` and `toUpperCase` map ASCII letters only; other scripts' case mappings are
  not modelled.
- `JSON.stringify(props)` in the generic component is taken as an input text (`Props.json`).
  Only the string case of `JSON.stringify` is modelled.
- The `children` option of the component generator is never read by the source, and the model
  keeps it only to show that.
- `framework`, `style` and `mode` of a generation request only shape the prompt sent over the
  network, so they have no effect in the model.
- TemplateLibrary.GetTemplate: the table-reading functions and both routes use the corrected
  own-key lookup. The as-written bracket lookup is modelled separately (see Findings).
- TemplatesRoute.Get: it uses the corrected own-key lookups, so `?category=constructor` (and
  `?category=buttons&template=constructor`) is answered 404, where the source answers 200. TemplatesRoute.GetAsWritten
  models the route as written.
- The React components and pages, and the async/await plumbing, are not part of this model.

## Findings

| source | as written | input that shows it | evidently intended | confidence | as-written member | corrected member |
|---|---|---|---|---|---|---|
| utils/template-library.ts:494-498 | `TEMPLATE_LIBRARY[category]` and `categoryTemplates[template]` index plain object literals, so names inherited from Object.prototype are found too | `getTemplate("buttons", "constructor")` yields the built-in `Object` function instead of ''. `getTemplate("constructor", x)` passes the category check. | only listed pairs are found, and '' otherwise | not executed | TemplateLibrary.InheritedNamesAreFound | TemplateLibrary.GetTemplateHitsListedPairs |
| app/api/templates/route.ts:25-33 | `allTemplates[category]` indexes a plain object literal, so a name inherited from Object.prototype passes the `if (categoryTemplates)` test | `GET /api/templates?category=constructor` is answered 200 with the inherited function, which serialises as `{}`, instead of 404. `?category=buttons&template=constructor` is answered 200 the same way through `getTemplate`. | only listed categories answer 200, and 404 otherwise | not executed | TemplatesRoute.InheritedCategoryFound | TemplatesRoute.InheritedCategoryNotFound |
