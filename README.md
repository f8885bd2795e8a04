# Little Bridge generate handler, modelled in Dafny

Little Bridge is a small web service. A caller sends a free-text account of a
personal experience and receives an interpretation written by a language-model
completion service. This project models the core of its `/generate` handler
(`main.py`). The handler's steps, in order:

1. **Access check** (`check_access`): the request's invite code must be
   non-empty and equal to the configured `ACCESS_CODE` (default `IDEATEST`).
   Otherwise the reply is 401.
2. **Sliding-window rate limit** (`RATE`): a map from client address to the
   times of that client's recent admitted requests. Each request drops the
   entries at least 60 seconds old. With 5 or more entries left it is refused
   with 429 and not recorded; otherwise its time is recorded.
3. **Length checks**: the raw experience must have at least 10 characters
   after `strip()` (400 "write a bit more"). It must also have at most 2000
   characters as sent (400 "too long"). A request refused here has already
   used a rate-limit slot.
4. **Prompt rendering**: a constant system instruction, plus the user template
   filled by `str.format` with the user type, the stripped scenario, the
   stripped raw experience and the three context signals. Nothing is escaped.
5. **Completion call**: a provider error becomes 500 with the provider's
   description. Otherwise the answer is the first choice's content, stripped.

Modules:

- `Wrappers` (`wrappers.dfy`): `Option` and `Result`.
- `Text` (`text.dfy`): Python's `str.strip()` with the whitespace set of
  `str.isspace()`. It is characterised uniquely (`TrimUnique`), and proved
  idempotent, a slice of its input, and insensitive to added padding.
- `RateLimit` (`rate_limit.dfy`): the pruning and admission functions
  `Recent`, `Admits` and `After`. The class `RateLimiter` holds the map as a
  field, and its `Allow` method updates the map in place. Lemmas cover a burst
  inside one window (`BurstWithinWindow`) and the cap on a non-decreasing
  clock (`RateCap`): any six admitted requests of one client span at least
  60 seconds.
- `Schema` (`schema.dfy`): the literal enumerations, the request record with
  its defaults, and the configuration with its default values.
- `Prompt` (`prompt.dfy`): the system instruction and the user template as
  constants, and `str.format` as substitution over a template split at its
  replacement fields. The rendered user prompt is proved equal to the literal
  pieces interleaved with the six values.
- `Generate` (`generate.dfy`): the checks as the pure function `Screen`, the
  reply as `Reply`, and the handler as the method `HandleGenerate`. The method
  consults the limiter object and calls the completion service.

Points where the code's behaviour is easy to misread, all modelled as written:

- The 2000-character cap applies to the raw experience as sent, before
  stripping, while the 10-character minimum applies after stripping
  (`PaddingCountsTowardsLimit`, `ShortCheckedBeforeLong`).
- Pruning keeps an entry only while `t - x < 60`, so an entry exactly
  60 seconds old is dropped.
- The system instruction asks for 160-260 words, and the user template for
  120-220. Both constants are modelled as written.

## Model

| member | source | states |
|---|---|---|
| `Text.IsSpace` | main.py:156 | every ASCII whitespace character (space, tab, newline, carriage return, vertical tab, form feed) is whitespace, and no ASCII letter or digit is |
| `Text.LeadingSpace` | main.py:156 | the count is the longest all-whitespace prefix: that prefix is whitespace and the next character is not |
| `Text.TrailingSpace` | main.py:156 | the count is the longest all-whitespace suffix: that suffix is whitespace and the character before it is not |
| `Text.Trim` | main.py:156 | `strip()` leaves no whitespace at either end and never lengthens its input |
| `Text.TrimIsSlice` | main.py:187 | the stripped text is a contiguous slice `s[i..j]` of its input, with only whitespace outside the slice |
| `Text.LeadingSpaceOf` | main.py:156 | whitespace in front of a part that starts with a non-space is exactly the leading run |
| `Text.TrailingSpaceOf` | main.py:156 | whitespace after a part that ends with a non-space is exactly the trailing run |
| `Text.TrimUnique` | main.py:156 | for any split into whitespace, a bare middle and whitespace, `strip()` returns that middle |
| `Text.TrimIdempotent` | main.py:187 | stripping the answer again changes nothing |
| `Text.TrimIgnoresPadding` | main.py:167-168 | whitespace added on either side of a text does not change what `strip()` gives |
| `RateLimit.Recent` | main.py:151 | pruning keeps exactly the entries less than 60 seconds before `t`, each with its multiplicity, and drops all others |
| `RateLimit.Admits` | main.py:151-152 | a client holding fewer than 5 entries is always admitted |
| `RateLimit.After` | main.py:151-154 | the new list holds no stale entry; it is the pruned list, plus one occurrence of `t` exactly when admitted; it stays within 5 entries |
| `RateLimit.RateLimiter.constructor` | main.py:12 | the limiter starts with no client and satisfies its invariant |
| `RateLimit.RateLimiter.Allow` | main.py:149-154 | returns whether fewer than 5 recent entries remain; replaces only `ip`'s list, by the pruned list plus `t` when admitted; every other address keeps its list; the at-most-5 invariant is kept |
| `RateLimit.RateLimiter.HistoryBounded` | main.py:151-154 | under the limiter's invariant, every address, including one never seen, holds at most 5 entries |
| `RateLimit.WindowSlides` | main.py:151-154 | once all of a client's entries have aged out, its next request is admitted and its list becomes `[t]` |
| `RateLimit.RecentKeepsAll` | main.py:151 | entries all inside the window survive pruning unchanged |
| `RateLimit.RecentDropsAll` | main.py:151 | entries all outside the window are all dropped |
| `RateLimit.RecentTwice` | main.py:151 | pruning at an earlier time and then at a later time is the same as pruning at the later time |
| `RateLimit.RecentSnoc` | main.py:151-154 | pruning a list with a time appended prunes the list, then keeps the appended time if it is recent |
| `RateLimit.Verdicts` | main.py:149-154 | successive requests from one client get one verdict each |
| `RateLimit.BurstWithinWindow` | main.py:151-154 | in a burst inside one window, request `i` is admitted exactly when the list held fewer than `5 - i` entries; from empty, the first five are admitted and later ones refused |
| `RateLimit.AdmitKeepsSpread` | main.py:152-154 | admitting a request while fewer than 5 entries are recent keeps every six admitted times at least 60 seconds apart |
| `RateLimit.AdmittedSpread` | main.py:149-154 | on a non-decreasing clock, each step keeps the admitted times sorted and spread: any six span at least 60 seconds |
| `RateLimit.RateCap` | main.py:149-154 | on a non-decreasing clock, a fresh client's admitted times are sorted, any six span at least 60 seconds, and any admitted times less than 60 seconds apart are at most 5 positions apart, so no 60-second span holds more than 5 of them |
| `RateLimit.WindowCount` | main.py:151-152 | in a sorted list where any six entries span at least 60 seconds, entries less than 60 seconds apart are fewer than 5 positions apart |
| `Schema.ParseUserType` | main.py:33 | a string parses exactly when it is the name of a user type ("Parent", "Founder" or "Other"), and then to the value with that name |
| `Schema.ParseLevel` | main.py:34 | a string parses exactly when it is the name of a level ("High", "Medium" or "Low"), and then to the value with that name |
| `Schema.ParseYesNo` | main.py:35 | a string parses exactly when it is "Yes" or "No", and then to the value with that name |
| `Schema.NamesRoundTrip` | main.py:33-35 | every enumeration value's name parses back to the value |
| `Prompt.Piece` | main.py:165-172 | a segment yields text exactly when it is a literal or a field with an argument |
| `Prompt.Format` | main.py:165-172 | formatting succeeds exactly when every field of the template has an argument (otherwise it is the `KeyError`) |
| `Prompt.FormatSuffix` | main.py:165-172 | formatting from segment `k` is segment `k`'s text followed by the formatted rest |
| `Prompt.FormatLitField` | main.py:165-172 | a literal followed by a supplied field formats to the literal, the argument, then the rest |
| `Prompt.SixFields` | main.py:165-172 | a template of seven literals around six supplied fields formats to the literals and arguments interleaved, in order, verbatim |
| `Prompt.PromptArguments` | main.py:165-172 | the scenario and raw-experience arguments are present and have no whitespace at either end |
| `Prompt.ArgumentsOf` | main.py:165-172 | the six keyword arguments are the user type, the stripped scenario, the stripped raw experience and the three signal names |
| `Prompt.TemplateFilled` | main.py:109-127 | formatting the user template with the request's arguments never misses a key and yields the template text with the six values substituted |
| `Prompt.UserPrompt` | main.py:165-172 | the user prompt is the template's literal text with user type, stripped scenario, stripped raw experience, time pressure, emotion intensity and irreversibility substituted in that order, unescaped |
| `Prompt.Messages` | main.py:176-180 | the system message is the constant `SYSTEM_PROMPT`; the user message is the rendered prompt |
| `Prompt.SystemMessageFixed` | main.py:178 | any two requests send the same system message |
| `Prompt.MessagesIgnorePadding` | main.py:167-168 | whitespace around the scenario or the raw experience does not change the messages |
| `Generate.AccessGranted` | main.py:71-73 | a granted code equals the configured one, and an empty configured code grants nobody |
| `Generate.Status` | main.py:73-185 | every failure has a 4xx or 5xx status, and it is 500 exactly for the provider error and the unhandled missing content |
| `Generate.Detail` | main.py:73-185 | the provider error's detail is its description, passed through; every other failure has a non-empty fixed detail |
| `Generate.RefusalsDistinct` | main.py:71-161 | the four refusals (401, 429, 400 short, 400 long) differ in status or detail |
| `Generate.CheckLength` | main.py:156-161 | the text passes exactly when it has at least 10 characters stripped and at most 2000 as sent; too short exactly when under 10 stripped; too long exactly when long enough but over 2000 |
| `Generate.Screen` | main.py:147-183 | the completion call is made exactly when the code matches, the caller is under quota and both length checks pass; the call carries the configured model, the rendered messages, temperature 0.6 and the configured token cap; every refusal here is a client error |
| `Generate.WindowsAfter` | main.py:147-154 | a refused access code leaves the map unchanged; otherwise the caller's list becomes its admission-step result; every other address keeps its list; the at-most-5 bound is kept |
| `Generate.Reply` | main.py:174-188 | a provider error becomes the 500 carrying its description; a missing content becomes the unhandled 500; otherwise the reply is generated, with the minted identifier and an answer with no whitespace at either end |
| `Generate.HandleGenerate` | main.py:146-188 | the outcome and the call sent, if any, follow `Screen` on the limiter's prior list, then `Reply`; the limiter changes only for an authorised request, by one `Allow` step; its invariant is kept |
| `Generate.AccessCheckedFirst` | main.py:71-73 | a wrong or empty code gets 401 whatever the text and the limiter state, and leaves the limiter untouched |
| `Generate.RateCheckedBeforeContent` | main.py:151-153 | an authorised caller over quota gets 429 whatever text it sent |
| `Generate.LengthRefusalUsesSlot` | main.py:154-161 | an authorised request under quota that fails a length check gets that check's refusal, yet its time has been recorded in the caller's list |
| `Generate.ShortCheckedBeforeLong` | main.py:156-161 | text that is too short stripped and too long as sent is refused as too short |
| `Generate.PaddingCountsTowardsLimit` | main.py:160-161 | ten letters padded with spaces to 2001 characters are refused as too long, though ten remain after stripping |
| `Generate.AnswerIsStrippedCompletion` | main.py:187 | the returned answer is a contiguous slice of the completion text with only whitespace cut off either side, and is unchanged by stripping again |

## Left out

- The feedback endpoint (`feedback`, main.py:191-208) is not modelled. It
  prints, appends a JSON line to a file and swallows write errors, all of
  which is I/O. As written, `FeedbackInput` is declared inside the body of
  `GenerateOutput`, so the module-level name used by that endpoint does not
  exist.
- The feedback reaction enumeration (main.py:36) belongs to that endpoint
  and is not modelled.
- Serving `index.html` (main.py:133-140) is file I/O and is not modelled.
- Routing, request parsing and status-code plumbing are not modelled. Request
  parsing refuses missing fields and strings outside the literal enumerations
  before the handler runs. `Schema.ParseUserType`, `Schema.ParseLevel` and
  `Schema.ParseYesNo` state that refusal for the enumerations and stand
  alone: the handler takes an already-parsed `ExperienceInput`. Outcomes are
  the `Outcome` and `Failure` datatypes instead of HTTP responses.
- Start-up configuration is not modelled: reading the environment, parsing
  `MAX_OUTPUT_TOKENS`, and refusing to start without an API key. `Config`
  takes the resulting values, and `DefaultConfig` holds the defaults.
- The completion service (main.py:174-185) is a network call. It is the
  parameter `provider`, a function from the call to its result. Its error
  description is passed through. A missing first-choice content is the
  unhandled 500 (`Unhandled`). Any other malformed response is not modelled.
- The experience identifier (main.py:163) comes from `uuid.uuid4()`. It is the
  parameter `experienceId`, and its uniqueness is not modelled.
- Time is whole ticks (`int`) rather than the float seconds of `time()`.
- RateLimit.RateCap: assumes a clock that does not go backwards. Wall-clock
  time can step back, and then the cap is not guaranteed.
- Concurrency is not modelled. Requests are handled one at a time, and the
  lock the shared map would need is not modelled.
- `Text.IsSpace` lists the code points `str.isspace()` accepts as a fixed
  set. Lengths count code points, as Python's `len` does. Lone surrogates,
  which a Python string can hold, cannot occur in a Dafny string.
- The user template is given already split at its six replacement fields. It
  contains no other braces, so no format-string parser is modelled.
- `prompt.py` and `schemas.py` are not modelled. The first holds an unused
  alternative template; the second repeats declarations without behaviour.
