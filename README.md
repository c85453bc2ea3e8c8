# Bati-Serveur: database URL clean-up and call-routing webhooks

This project models the two pieces of logic in the Bati-Serveur back end
(a Flask + Twilio telephony service and a Streamlit dashboard for a
plastering contractor) that can be stated precisely:

1. **The DATABASE_URL sanitiser** of `get_db_connection` in `dashboard.py`.
   Hosting platforms sometimes hand over the connection string still
   wrapped in a `psql "…"` command line or in quotes. When the value is set and
   non-empty, the code deletes every `psql `, then every `"`, then every
   `'`, strips surrounding whitespace, and finally rewrites a leading
   `postgres://` to `postgresql://`. `Dashboard.CleanUrl` is that
   transformation on `Option<string>` (`None` for an unset variable). The
   Python string operations it uses are written out in module `PyStr`:
   `str.replace` (all non-overlapping occurrences, scanning left to right;
   and the `count=1` form), `str.startswith`, and `str.strip()` whose
   whitespace set is Python's `str.isspace()` set: U+0009–U+000D,
   U+001C–U+001F, U+0020, U+0085, U+00A0, U+1680, U+2000–U+200A, U+2028,
   U+2029, U+202F, U+205F and U+3000. "Only deletes characters" is stated
   with `PyStr.IsSubseq` (the survivors keep their order).

2. **The call-routing webhooks** of `main.py`. An incoming call is
   forwarded to the artisan's mobile with a 10-second timeout; the dial
   outcome is posted to `/webhook/ai-takeover`, which ends the call when the
   dial completed and otherwise plays a French greeting and records up to
   60 seconds; the recording is posted to `/webhook/process-recording`,
   which only acknowledges it. TwiML is modelled as a sequence of `Verb`
   values (`Dial`, `Say`, `Record`) built in place by a `VoiceResponse`
   class, as Twilio's library does; a view's result is a `Response` of a
   body (plain text or TwiML) and an HTTP status. Each route's contract
   gives its exact output and the callback targets it hands to Twilio, all
   of which are webhook paths the application serves, so the flow incoming-call → ai-takeover →
   process-recording is closed and ends at process-recording.

Files: `wrappers.dfy` (Option), `pystr.dfy` (Python string operations and
subsequence lemmas), `dashboard.dfy` (the URL clean-up), `webhooks.dfy`
(the webhooks).

## Model

| member | source | states |
|---|---|---|
| `PyStr.IsSpace` | dashboard.py:31 | no contract; defined as Python's `str.isspace()` set listed above |
| `PyStr.StartsWith` | dashboard.py:32 | no contract; defined as `s.startswith(p)`: `p` is no longer than `s` and equals its first `|p|` characters |
| `PyStr.ReplaceAll` | dashboard.py:31 | no contract; defined as `str.replace(p, r)`: left-to-right, non-overlapping; an empty pattern inserts `r` before each character and at the end |
| `PyStr.ReplaceFirst` | dashboard.py:33 | no contract; defined as `str.replace(p, r, 1)`: only the leftmost occurrence is replaced |
| `PyStr.ReplaceFirstAbsent` | dashboard.py:33 | `replace(p, r, 1)` with a non-empty pattern that does not occur anywhere returns the string unchanged (the leftmost-occurrence search never rewrites elsewhere) |
| `PyStr.Strip` | dashboard.py:31 | no contract; defined as `rstrip(lstrip(s))`, i.e. `str.strip()` without arguments |
| `PyStr.LStrip` | dashboard.py:31 | the result is the suffix of the input left after cutting only whitespace, and it does not start with whitespace |
| `PyStr.RStrip` | dashboard.py:31 | the result is the prefix of the input left after cutting only whitespace, and it does not end with whitespace |
| `PyStr.StripTrims` | dashboard.py:31 | `strip()` leaves no whitespace at either end and only deletes characters |
| `PyStr.StripKeepsTrimmed` | dashboard.py:31 | `strip()` returns a string without surrounding whitespace unchanged |
| `PyStr.ReplaceAllAbsent` | dashboard.py:31 | `replace` with a pattern that does not occur returns the string unchanged |
| `PyStr.ReplaceAllDeletes` | dashboard.py:31 | `replace(p, "")` only deletes characters, keeping the survivors in order |
| `PyStr.ReplaceAllRemovesChar` | dashboard.py:31 | `replace(c, "")` leaves no occurrence of the character `c` |
| `PyStr.ReplaceFirstAtStart` | dashboard.py:33 | `replace(p, r, 1)` on a string starting with `p` replaces that leading occurrence only and keeps the rest verbatim |
| `Dashboard.Sanitized` | dashboard.py:31 | no contract; defined as the four deleting steps in the source's order: every `psql `, every `"`, every `'`, then `strip()` |
| `Dashboard.RewriteScheme` | dashboard.py:32-33 | no contract; defined as `replace("postgres://", "postgresql://", 1)` when the string starts with `postgres://`, otherwise the identity |
| `Dashboard.CleanUrl` | dashboard.py:27-33 | an unset or empty DATABASE_URL is passed on untouched; a set value stays set |
| `Dashboard.SanitizedShape` | dashboard.py:31 | after the deleting steps the URL has no `"`, no `'`, no surrounding whitespace, and is a subsequence of the input |
| `Dashboard.RewriteSchemeKeepsShape` | dashboard.py:32-33 | the scheme rewrite adds no quote and no surrounding whitespace |
| `Dashboard.RewriteSchemeKeepsPostgresql` | dashboard.py:32 | a URL already starting with `postgresql://` does not match `postgres://` and is left alone |
| `Dashboard.CleanUrlHasNoQuotes` | dashboard.py:31-33 | the cleaned URL contains no `"` and no `'` |
| `Dashboard.CleanUrlIsTrimmed` | dashboard.py:31-33 | the cleaned URL has no leading or trailing whitespace |
| `Dashboard.CleanUrlRewritesScheme` | dashboard.py:32-33 | a sanitised URL starting with `postgres://` becomes `postgresql://` followed by the rest unchanged (later `postgres://` untouched) |
| `Dashboard.CleanUrlKeepsOtherSchemes` | dashboard.py:32 | a sanitised URL not starting with `postgres://` is not changed by the scheme step |
| `Dashboard.CleanUrlFixedPoint` | dashboard.py:30-33 | a URL with no `psql `, no quotes, no surrounding whitespace and no `postgres://` prefix is returned unchanged |
| `Dashboard.CleanUrlOnlyDeletes` | dashboard.py:31-33 | the result is the sanitised URL, a subsequence of the input, possibly with `ql` inserted by the scheme rewrite; so it is at most two characters longer than the input |
| `Dashboard.CleanUrlNotIdempotent` | dashboard.py:31-33 | the fixed step order means `ps'ql x` cleans to `psql x`, which cleans again to `x`: the result may contain `psql ` and cleaning is not idempotent |
| `Webhooks.VoiceResponse.constructor` | main.py:26 | a new TwiML document holds no verbs |
| `Webhooks.VoiceResponse.Append` | main.py:32 | appending adds exactly that verb at the end |
| `Webhooks.VoiceResponse.Say` | main.py:40 | `say` appends one `Say` verb with the given text, voice and language |
| `Webhooks.VoiceResponse.Record` | main.py:41 | `record` appends one `Record` verb with the given cap and callback |
| `Webhooks.FormGet` | main.py:37 | no contract; defined as `request.form.get(key)`: the field's value when posted, `None` otherwise |
| `Webhooks.Home` | main.py:20-22 | the root path answers the fixed status line with status 200 and no callback |
| `Webhooks.IncomingCall` | main.py:24-33 | for any request: exactly one `Dial` to `+33600000000`, timeout 10, reporting to `/webhook/ai-takeover`, a served path |
| `Webhooks.AiTakeover` | main.py:35-42 | `DialCallStatus` equal to `completed` (and only then) gives body `Terminé`, status 200, no voice verb; otherwise, a missing status included, exactly `Say(greeting, alice, fr-FR)` then `Record(60, /webhook/process-recording)`; every callback is a served path |
| `Webhooks.ProcessRecording` | main.py:44-47 | whatever is posted, the answer is `OK` with status 200 and no further callback, ending the flow |

## Left out

- `psycopg2.connect`, the `try`/`except` around it and the `st.error` message (dashboard.py:35-39): a call into the database driver and UI output; the model stops at the URL handed to the driver.
- Reading `DATABASE_URL`, `OPENAI_API_KEY` from the environment (dashboard.py:27, main.py:11-12): the raw value is a parameter of `CleanUrl`.
- All Streamlit page code, the sidebar, CSS, SQL queries and tables (dashboard.py:1-21, 41-148): user interface and database I/O.
- Flask's HTTP server and dispatch by path: the POST webhook paths are the set `Webhooks.CallbackRoutes`; each view is a member of its own.
- Twilio's XML rendering of TwiML (`str(resp)`, main.py:33, 42): `Webhooks.VoiceResponse.Render` returns the verb list instead of XML text, so nothing about rendering is proved.
- `Webhooks.IncomingCall`: the `Dial` verb's nested `Number` noun (`dial.number(...)`) is folded into a single `number` field, since the code adds exactly one.
- `Webhooks.AiTakeover`: a form field posted several times is modelled with one value (Flask's `get` returns the first).
- The `print` in `process_recording` (main.py:46): logging only.
- The OpenAI client and `SYSTEM_PROMPT` (main.py:3, 11, 14-18): never used by any route.
- `Dashboard.CleanUrl`: Dafny characters are Unicode scalar values, so environment strings holding lone surrogates (Python's `surrogateescape` decoding of invalid bytes) are not modelled.
