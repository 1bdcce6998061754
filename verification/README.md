# Brainstorming prompt builder and `/generate` endpoint, in Dafny

This project models the logic of a small Flask backend that turns a
brainstorming request (technique, business area, business icon, issue,
assumptions) into a prompt for a remote text-generation service and relays
the answer as JSON. Two pieces of `app.py` carry that logic, and both are
modelled as pure functions:

- **The prompt builder** (`build_prompt`). It collects lines in a fixed
  order and joins them with newlines. The order is: a preamble naming the
  technique, an optional technique description, an optional business
  context, an optional icon perspective, the issue, optional assumptions,
  and fixed closing instructions. The two lookup tables `TECHNIQUE_CONTEXTS`
  and `ICON_PERSPECTIVES` are constant maps. The builder takes them as one
  `Tables.Catalog` value, and the application's pair is `Tables.Shipped`.
  The properties of the builder and the handler are proved for any pair of
  tables, so in particular for the application's, with one exception:
  reading the prompt back from its text (`Prompt.ParseBuiltPrompt`) also
  assumes that no fixed line (`FixedTextsSingleLine`) and no table key or
  text (`CatalogSingleLine`) contains a newline, and neither is proved for
  the application's constants or `Tables.Shipped` (see Left out).
  `Prompt.KnownTechniqueBlock` and `Prompt.KnownPerspectiveBlock` tie the
  blocks to the closed sets of technique and icon names for any tables keyed
  like the application's, and `Tables.ShippedKeys` shows `Tables.Shipped`
  is.
- **The `/generate` handler.** It is a decision procedure from the start-up
  configuration, the request body and the service's reply to a status code
  and a JSON payload. It also records which prompt, if any, was handed to
  the service.

Modules, one file each:

- `wrappers.dfy` (`Wrappers`): `Option` and `Result`.
- `text.dfy` (`Text`): the Python string behaviour the builder relies on.
  This is truthiness, `str.isspace`/`str.strip()`, and `"\n".join` with
  `str.split("\n")` as its inverse.
- `tables.dfy` (`Tables`): the two tables, their key sets, and the keys as
  closed enumerations.
- `prompt.dfy` (`Prompt`): the builder. It is paired with `ParseLines`, a
  positional reader that recovers the layout of a prompt. The round trip
  between the two states, block by block, what the builder promises.
- `endpoint.dfy` (`Endpoint`): the handler. `Generate` has the intended
  configuration check. `GenerateAsWritten` reproduces the code's unbound
  `model` name (see Findings).

The builder is a Dafny function, so it is deterministic: identical inputs
give identical prompts, and no state is involved.

Three behaviours of the code worth stating plainly:

- The business-area block appears whenever `business_area` is a non-empty
  string. It is not trimmed, so a value of only spaces still produces the
  block. Only the assumptions are checked after `strip()`.
- When the service's response has no text (`response.text` is `None`), the
  handler answers 200 with `{success: true, output: null}`. It does not
  report an error. The model keeps this as `Output(None)`.
- The configuration check reads `model`, which is never bound when a key
  is set. See Findings.

## Model

| member | source | states |
|---|---|---|
| Text.Strip | app.py:160 | `str.strip()` removes only whitespace, and only from both ends. The rest neither starts nor ends with whitespace. The result is empty exactly when the text is all whitespace, so `assumptions.strip()` is falsy exactly for blank assumptions. |
| Text.JoinSplit | app.py:176 | Splitting a text at newlines and joining the pieces with `"\n"` gives the text back, for every text. |
| Text.SplitJoin | app.py:176 | Splitting the `"\n"`-join of single-line strings gives the lines back, so the join loses nothing. |
| Text.Join | app.py:176 | Python's `"\n".join`: no lines join to the empty text. Its inverse is `Split` (rows `Text.JoinSplit` and `Text.SplitJoin`). |
| Text.JoinShape | app.py:176 | A join of one or more lines starts with the first line and ends with the last, and with two or more lines a newline follows the first line directly. |
| Text.JoinAppend | app.py:176 | Joining two non-empty runs of lines equals joining each run and putting one newline between them. |
| Tables.TechniqueKeys | app.py:26-35 | The technique table is keyed by exactly the eight technique names. |
| Tables.IconKeys | app.py:38-56 | The icon table is keyed by exactly the seventeen icon names, with the table's own spellings. |
| Tables.TechniqueNamed | app.py:26-35 | A name is one of the technique table's keys exactly when it names one of the eight techniques, and that technique's name is the name given. |
| Tables.IconNamed | app.py:38-56 | A name is one of the icon table's keys exactly when it names one of the seventeen icons, and that icon's name is the name given. |
| Tables.TechniqueNameRoundTrip | app.py:26-35 | The name of every one of the eight techniques is in the key set `TechniqueNames`, which `Tables.TechniqueKeys` shows is exactly the description table's keys, and the name leads back to the technique. |
| Tables.IconNameRoundTrip | app.py:38-56 | The name of every one of the seventeen icons is in the key set `IconNames`, which `Tables.IconKeys` shows is exactly the perspective table's keys, and the name leads back to the icon. |
| Tables.ShippedKeys | app.py:26-56 | The application's pair of tables is keyed by exactly the eight technique names and the seventeen icon names. |
| Prompt.PromptLines | app.py:133-174 | The collected lines start with the three preamble lines (the role line, "Apply the " + technique + the rest of that sentence, and a blank line) and end with the seven closing lines. Between them there are at least the three lines of the issue block. |
| Prompt.BuildPrompt | app.py:128-176 | The prompt begins with the role line, then the line naming the technique (known or not), then a blank line. It ends with a newline and the seven closing lines joined. The issue appears verbatim on its own line between the "Challenge/Issue:" header and a blank line. |
| Prompt.PromptMentions | app.py:133-157 | Every prompt contains the technique and the issue exactly as given. |
| Prompt.ReadTechniqueBlock | app.py:140-142 | Reading the line after the preamble (followed by a later block's line) recovers the technique's description from the table exactly when the technique is a table key; otherwise there is no technique block and nothing is consumed. |
| Prompt.ReadBusinessBlock | app.py:145-147 | The business block is there exactly when the business area is a non-empty string, untrimmed, and it reads back as that exact string between "Business Context: Focus on the " and " industry/sector.". |
| Prompt.ReadPerspectiveBlock | app.py:150-152 | The perspective block is there exactly when the icon is a non-empty table key, and it reads back in full: the icon's name, " would, ", and its table text, between "Perspective: Approach this challenge as " and ".". |
| Prompt.ParseBuiltOptionalBlocks | app.py:140-152 | The three optional blocks follow one another in the fixed order technique, business, perspective, and each is read back exactly when its condition holds. |
| Prompt.KnownTechniqueBlock | app.py:140-142 | With tables keyed like the application's, the technique block is present exactly when the technique is the name of one of the eight techniques. |
| Prompt.KnownPerspectiveBlock | app.py:150-152 | With tables keyed like the application's, the perspective block is present exactly when the icon is given and is the name of one of the seventeen icons. |
| Prompt.ParseBuiltLines | app.py:133-174 | Reading the built lines back yields the promised layout in the fixed order. The technique is always named. Its description appears exactly when it is a table key. The business area appears exactly when it is non-empty. The icon's perspective appears exactly when the icon is a non-empty table key, and then in full. The issue appears verbatim. The unstripped assumptions appear exactly when they are not blank. The closing block comes last. |
| Prompt.ParseBuiltPrompt | app.py:128-176 | When the user-supplied texts are single lines, the joined prompt text alone gives back the same layout. |
| Prompt.IssueCanForgeAssumptions | app.py:155-163 | The issue is embedded without escaping. A multi-line issue can reproduce an assumptions block exactly, and then two different requests build the same prompt. |
| Endpoint.Generate | app.py:74-125 | Responses are 200, 400 or 500, and success holds exactly for 200. Without a key the answer is the fixed "not configured" 500, whatever the request. A missing or empty technique or issue gives the fixed 400. A prompt is sent exactly when neither of those happens, and it is the built prompt. A 200 happens exactly when a prompt was sent and the service replied, and the reply is relayed verbatim. When configured, an unreadable body gives a 500 whose message is "An error occurred while generating content: " followed by the text of the reading error, and no prompt is sent. A failed call gives a 500 with that prefix followed by the failure's text. |
| Endpoint.GenerateAsWritten | app.py:72-80 | As written, the handler never sends a prompt and always answers 500. With a key set, reading the unbound `model` raises a `NameError`, reported with the error prefix. Without a key, it gives the same answer as the intended handler. |
| Endpoint.UnboundModelDiverges | app.py:76 | For every configured, well-formed request that the service answers, the handler as written gives 500 where the intended one gives 200 with the reply. |
| Endpoint.SentPromptMentionsRequest | app.py:91-110 | Every prompt the handler sends contains the request's technique and issue verbatim. |
| Endpoint.DocumentedExchanges | app.py:76-118 | A configured "5 Whys" / "Sales are declining" request gets 200 with the service's text, and the prompt sent names both. The same issue without a technique gets 400 with "Technique and Issue are required fields.". Without a key, every request gets the "not configured" 500. |

## Left out

- Flask wiring is not modelled: the `/` and `/app` pages, template rendering, and the 404 and 500 error handlers (app.py:59-68, app.py:179-187). They hold no logic beyond returning fixed pages.
- Environment loading, the Flask secret key and the port (app.py:11-15, app.py:190-193) are not modelled. They are process configuration. The value of `GEMINI_API_KEY` is a parameter (`apiKey`) of the handler.
- The call to the remote service (app.py:102-113) is a network call. It becomes the `reply` parameter: the text it returns (possibly none) or the text of the exception it raises. The model name and call configuration are not modelled.
- Exception texts are opaque strings supplied as inputs. This covers a body that is not JSON or not an object, and a failed remote call. The `print` logging (app.py:23, app.py:121) is not modelled.
- Request fields are modelled as missing or string-valued. JSON numbers, lists or objects in a field, and the exceptions they would cause inside `build_prompt`, are not modelled.
- `static/js/app.js` is not part of this model. It is browser-side UI code: DOM handling, `fetch`, clipboard, and a regex-based markdown-to-HTML conversion.
- Prompt.ParseBuiltPrompt: assumes `FixedTextsSingleLine()` and `CatalogSingleLine(catalog)` instead of proving them for the application's texts. They say that the fixed lines and the table keys and texts contain no newline. That is true of the constants, but the verifier does not reason about the characters of string literals this long.

## Findings

| source | as written | input that shows it | evidently intended | confidence | as-written member | corrected member |
|---|---|---|---|---|---|---|
| app.py:76 | `if not model` reads a name that start-up binds only when `GEMINI_API_KEY` is missing (app.py:19-22) | any POST to `/generate` with `GEMINI_API_KEY` set, e.g. technique "5 Whys" and issue "Sales are declining" | treat the service as configured when the key is set (the `client` built at app.py:20), then validate and call it | high (not executed) | Endpoint.GenerateAsWritten, Endpoint.UnboundModelDiverges | Endpoint.Generate |
