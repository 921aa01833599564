# PixelPalette image-generation relay, modelled in Dafny

PixelPalette's Flask back end exposes two routes. `POST /api/generate` reads a
JSON body with a `prompt`, an optional `quality` and an optional `style`. It
rejects a missing or empty prompt with a 400. It looks the style up in a static
table of eight prefix phrases, falling back to "natural" for an unknown key. It
prepends the phrase and a space to the prompt and calls the image provider
(DALL-E 3) once, with size 1024x1024, `n = 1`, the quality as sent (or
"standard") and a provider-level style reduced to "natural" or "vivid". It then
returns the first image's url and revised prompt. Any exception becomes a 500
carrying the exception text. `GET /api/health` always answers `{"status": "healthy"}`.

The model is functional. The provider is a total function from a call to an
outcome (a list of images, or an exception message). Each request yields an
`Exchange`: the provider calls it made and the response it produced.

- `json.dfy` (`Json`): field values (`null` or a string), the request body
  (an object, or a body the handler raises on), `dict.get` with a default,
  and Python truthiness.
- `styles.dfy` (`Styles`): the style table, the lookup with fallback, the
  enhanced prompt, and the provider-level style. It also holds `Split`, the
  inverse of enhancement. `Split` recovers the table key and the user's prompt
  from an enhanced prompt, which works because no row's prefix-plus-space
  starts another's.
- `generate.dfy` (`Generate`): request planning, response mapping, and the
  handler composed from them.
- `server.dfy` (`Server`): the health check, routing, and a history of
  requests served in order. The history is a modelling device: Flask's serving
  loop is left out, and `Serve` is defined as each request handled on its own,
  so "no state carries over" holds by construction. What it adds is a place to
  state facts over many requests, such as the count of provider calls.

Three details of the code:

- Quality is forwarded unchanged whatever its value. It is not restricted to
  "standard" and "hd".
- A `quality` or `style` key that is present with value `null` does not take
  the default. `dict.get` only defaults absent keys.
- `revised_prompt` is always in a success body, as `null` when the provider
  gives none.

## Model

| member | source | states |
|---|---|---|
| Json.Get | app/flask/main.py:32-34 | `data.get(key, default)`: the stored value when the key is present, null included, and the default only when the key is absent. The two ensures are the definition of `dict.get` |
| Json.Truthy | app/flask/main.py:36 | Python's truth value of the prompt: false exactly for null and the empty string |
| Generate.HasPrompt | app/flask/main.py:32-36 | a body passes validation exactly when it is an object and `data.get("prompt")` is truthy, that is, the "prompt" key holds a non-empty string |
| Generate.RequestedStyle | app/flask/main.py:34 | the style is the "style" field as sent, null included, and "natural" only when the key is absent |
| Styles.TableShape | app/flask/main.py:17-26 | the style table has eight rows, its first row is "natural", its second is "vivid", and no key repeats |
| Styles.Find | app/flask/main.py:40 | dictionary lookup finds a key exactly when some row carries it, and then returns that row's phrase (the only one, since keys are distinct) |
| Styles.EffectiveStyle | app/flask/main.py:40 | the style whose phrase is used is always a key of the table |
| Styles.PrefixFor | app/flask/main.py:40 | the lookup never fails: a known key selects its own row's phrase; an unknown string or null selects the "natural" phrase |
| Styles.Enhance | app/flask/main.py:41 | the enhanced prompt starts with the selected phrase and a space and ends with the prompt, with nothing in between, so it is strictly longer than the prompt |
| Styles.ProviderStyle | app/flask/main.py:50 | the provider style is "natural" or "vivid"; it equals the requested style exactly when that style is one of the two; it is "vivid" exactly when the table row used is "vivid" |
| Styles.SplitBy | app/flask/main.py:41 | when an enhanced prompt is split, the result names a row whose phrase, a space and the recovered prompt rebuild it |
| Styles.LeadsDiffer | app/flask/main.py:17-26 | any two different rows' phrases (with the space) differ at a position both have, so neither is a prefix of the other |
| Styles.SplitEnhance | app/flask/main.py:41 | splitting an enhanced prompt returns the effective style key and the original prompt (enhancement is lossless) |
| Styles.EnhanceInjective | app/flask/main.py:41 | two requests produce the same enhanced prompt exactly when they use the same table row and carry the same prompt |
| Generate.PlanRequest | app/flask/main.py:31-50 | a provider call is planned exactly when the prompt is a non-empty string. An object body without one gets 400 "No prompt provided". A body the handler raises on gets 500 with the exception text. A planned call uses dall-e-3, 1024x1024, n = 1, the quality as sent or "standard", the provider style that ProviderStyle gives for the requested style (so natural or vivid), and the enhanced prompt built from the requested style ("natural" when absent) and the user's prompt |
| Generate.Respond | app/flask/main.py:53-59 | status 200 exactly when the provider returned at least one image, carrying the first image's url and revised prompt unchanged. Otherwise 500 with the exception text, or "list index out of range" for an empty list |
| Generate.Handle | app/flask/main.py:29-59 | one provider call exactly when the prompt is present and non-empty, none otherwise. A rejected request never gets a 200. The response's status and payload always agree |
| Generate.RejectionIgnoresProvider | app/flask/main.py:36-37 | a rejected request makes no call, and its answer is the same whatever the provider would do |
| Generate.AcceptedCallsOnce | app/flask/main.py:44-56 | an accepted request makes exactly one call with the fixed parameters, the forwarded quality and the normalised style. The call's prompt is the selected phrase, a space and the user's prompt. The answer is the mapping of that call's outcome |
| Generate.PlannedPromptSplits | app/flask/main.py:40-46 | the prompt sent to the provider splits back into the effective style and the user's prompt, so the request's text reaches the provider unaltered |
| Generate.AnimeExample | app/flask/main.py:40-50 | style "anime" prepends the anime phrase, sends provider style "natural", and defaults quality to "standard" |
| Generate.UnknownStyleExample | app/flask/main.py:40-50 | an unknown style ("sketch") prepends the natural phrase and sends provider style "natural" |
| Generate.RateLimitExample | app/flask/main.py:58-59 | a provider failure "rate limit" is answered with 500 and error "rate limit" |
| Server.HealthCheck | app/flask/main.py:61-63 | the health check is a 200 with status "healthy" |
| Server.Dispatch | app/flask/main.py:28-63 | any routed request makes at most one provider call and gets a well-formed response; a health request makes none and is answered "healthy" |
| Server.Serve | app/flask/main.py:28-63 | over a history of requests, the i-th answer is exactly what the i-th request alone yields with the provider of that moment; no state carries over |
| Server.OneCallPerAcceptedRequest | app/flask/main.py:36-51 | over any history, the provider is called once per request with a non-empty prompt and never otherwise |
| Server.HealthIgnoresHistory | app/flask/main.py:61-63 | after any history of requests, a health check still answers 200 "healthy" with no provider call |

## Left out

- Flask routing, `jsonify` and CORS setup: framework plumbing. Requests arrive already routed, so there are no 404/405 answers.
- Loading `.env` and setting the API key: environment I/O. A missing key only surfaces as a provider exception, which `Raised` covers.
- The `openai.images.generate` call itself: a network client. It is the abstract `provider` function, and its exception texts are abstract strings.
- JSON parsing: every body the handler raises on (invalid JSON, wrong content type, a non-object top level) is `Unparsable`, carrying the exception text.
- Field values other than `null` and strings (numbers, booleans, arrays, objects), and Python truthiness and `str()` on them: not modelled.
- The provider's `url` may itself be absent in the client library; the model treats it as always a string.
- Server.HealthCheck: its contract is the constant response itself. History independence is stated by Server.HealthIgnoresHistory.
