# LLM Expert Switcher (A/B): the answer function

A Streamlit page sends a question to a chat model under one of two expert
personas, A (management consultant) or B (data scientist). The only logic
below the page code is `ask_llm` in `app.py` and the read-only table
`EXPERT_SYSTEM_PROMPTS` it uses. This project models both as pure Dafny
functions and proves what they promise:

- `pystr.dfy` (`PyStr`): Python's `str.strip()` and `str.upper()` on
  strings. The whitespace set is the one `str.isspace()` accepts. Upper-casing
  covers the ASCII letters.
- `experts.dfy` (`Experts`): the two-entry prompt table and the resolution of
  the raw choice (strip, upper-case, look up, fall back to `"A"`).
- `ask.dfy` (`Ask`): `ask_llm`, meaning the empty-text guard, the credential
  lookup (secrets store first, then environment), the credential guard, the
  one chain invocation and the mapping of its result or exception to the
  returned text.
- `wrappers.dfy` (`Wrappers`): `Option`, for a configuration entry that may
  be absent.

The invocation of the chain (`chain.invoke`, app.py:90) is a parameter
`service: Request -> Outcome`. A `Request` holds the resolved system prompt,
the user text and the credential. An `Outcome` is `Success(text)` or
`Failure(desc)`, where `desc` is the exception's string form. `AskLlm` returns
an `Answer`: the string `ask_llm` returns, plus the list of requests it made.
The list is empty when a guard fires and holds exactly one request otherwise.

Only the exact empty string trips the first guard (`not user_text`,
app.py:50). Text made only of whitespace is sent to the service
(`Ask.WhitespaceQuestionIsSent`). The error reply is the fixed prefix of
app.py:92 followed by the exception's text (`Ask.ErrorPrefix`).

## Model

| member | source | states |
|---|---|---|
| PyStr.IsSpace | app.py:54 | the whitespace `strip()` removes. On ASCII it is exactly tab, line feed, vertical tab, form feed, carriage return, the four separators 0x1C-0x1F and space |
| PyStr.LeadingEnd | app.py:54 | `strip()`'s left scan stops at the first non-whitespace index, or at the end. Everything it skips is whitespace |
| PyStr.TrailingStart | app.py:54 | `strip()`'s right scan stops just after the last non-whitespace character, never passing the left scan's stop. Everything it skips is whitespace |
| PyStr.Strip | app.py:54 | `strip()`'s result has no whitespace at either end and is no longer than the input |
| PyStr.StripSplits | app.py:54 | the input is the leading whitespace, then `Strip`'s result, then the trailing whitespace |
| PyStr.StripPadded | app.py:54 | for any whitespace runs `p`, `q` and any unpadded `t`, stripping `p + t + q` gives exactly `t` |
| PyStr.Upper | app.py:54 | `upper()` keeps the length and maps each character by the ASCII upper-case mapping |
| PyStr.StripUpperCommute | app.py:54 | stripping and upper-casing commute |
| Experts.TableShape | app.py:28-40 | the table has exactly the keys `"A"` and `"B"`, the fallback key is one of them, and the two prompts differ |
| Experts.Normalize | app.py:54 | the normalised choice has no surrounding whitespace, no lower-case ASCII letter, and is no longer than the raw choice |
| Experts.ResolveChoice | app.py:53-56 | the resolved key is always a table key, `"A"` or `"B"`, and it is `"B"` exactly when the stripped, upper-cased choice is `"B"` |
| Experts.SystemPrompt | app.py:58 | the lookup never fails. It yields B's prompt when the normalised choice is `"B"` and A's prompt otherwise |
| Experts.NormalizePadded | app.py:54 | a choice made of whitespace, then an unpadded core, then whitespace normalises to the upper-cased core |
| Experts.ResolveKnownKey | app.py:55-58 | a choice whose normalised form is a table key resolves to that key |
| Experts.FallbackToA | app.py:55-56 | a choice that normalises to neither key resolves to `"A"` and to A's prompt |
| Experts.CaseInsensitive | app.py:54 | two choices that are equal once upper-cased resolve to the same key |
| Experts.PaddedLetter | app.py:54-56 | `a`, `A`, `b` or `B` between any two whitespace runs resolves to that letter's upper-case key |
| Experts.PaddedOtherLetter | app.py:54-56 | any other non-whitespace character between two whitespace runs falls back to `"A"` |
| Experts.BlankChoice | app.py:54-56 | a choice of whitespace only, the empty choice included, falls back to `"A"` |
| Experts.SampleLowerB | app.py:54-56 | `"b"` selects B |
| Experts.SamplePaddedB | app.py:54-56 | `" B "` selects B |
| Experts.SampleUpperB | app.py:54-56 | `"B"` selects B |
| Experts.SampleChoicesA | app.py:55-56 | `""` and `"z"` select A |
| Ask.ResolveApiKey | app.py:74-75 | a secrets entry wins even when blank. The environment value is used only when that entry is absent. With neither, the credential is `""` |
| Ask.AskLlm | app.py:45-94 | empty text gives the empty-input reply with no call, whatever the credential. Otherwise an empty credential gives the missing-key reply with no call. Exactly when both guards pass, one request is made, carrying the resolved prompt, the text verbatim and the credential. Success returns the service text unchanged. Failure returns the fixed prefix followed by the description |
| Ask.GuardedAnswerIgnoresService | app.py:50-77 | when either guard fires, no request is made and the answer is the same for every service |
| Ask.ServiceSeenThroughOneRequest | app.py:86-94 | two services that agree on the one request built from the inputs give the same answer |
| Ask.EmptyTextDecides | app.py:50-51 | with empty text the answer is the empty-input reply, whatever the choice, credential sources and service |
| Ask.BlankSecretShadowsEnvironment | app.py:75-77 | a blank secrets entry hides a set environment variable, so non-empty text gets the missing-key reply |
| Ask.WhitespaceQuestionIsSent | app.py:50-51 | whitespace-only text passes the first guard. Once a credential exists, it is sent to the service unchanged |
| Ask.GuardRepliesDistinct | app.py:50-92 | the two guard replies differ from each other and from every error reply |
| Ask.SampleRequests | app.py:50-94 | empty text gives the empty-input reply. No credential gives the missing-key reply. A service answering `"ok"` gives `"ok"`. A service failing with `"timeout"` gives the prefix followed by `"timeout"` |

## Left out

- The Streamlit page (app.py:99-128): page setup, expander, sidebar radio, form, spinner and rendering are UI plumbing.
- The LangChain chain (app.py:61-71, 79-90): the prompt template, the `{question}` substitution, the model name `gpt-4o-mini`, temperature 0.3 and `max_retries=2` belong to foreign library code and a network call. The model keeps only the invocation `chain.invoke` (app.py:90), as the abstract `service` function applied to one `Request`. Retries inside the client are invisible here.
- Ask.AskLlm: only the invocation (app.py:90) is inside the `try`. Template construction (app.py:61-71), client construction and the pipe (app.py:79-86) and the credential lookup (app.py:75) are assumed not to raise. In the source an exception there, for example from `st.secrets`, escapes `ask_llm` instead of becoming the error reply, and so does a `BaseException` that is not an `Exception` (such as `KeyboardInterrupt`) raised by the invocation itself. The model returns a string on every path only under these assumptions.
- `st.secrets` and `os.environ` (app.py:75) are two optional strings. A secrets value that is not a string is not modelled.
- PyStr.Upper: only ASCII `a`-`z` are upper-cased; Python's full Unicode case mapping (for example `"ß"` becoming `"SS"`) is not modelled. The resolved key still agrees with Python's as long as no non-ASCII character upper-cases to an ASCII `A` or `B`.
- The wording of the persona prompts and fixed replies is kept as opaque string constants. Nothing is claimed about what they say.
- Repeating a call with the same arguments gives the same answer because `AskLlm` is a function. This holds only against a deterministic service, which is what `service` models. The real model endpoint is not deterministic.
