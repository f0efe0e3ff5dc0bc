# inviteSender, modelled in Dafny

inviteSender is a single script, `script.py`. It reads a contact list, takes
the first `--limit` rows and processes each row in file order:

1. It strips the name and the phone number.
2. It writes a personalised PDF to
   `output/invitation_<name with spaces as underscores>.pdf`.
3. It opens the contact's WhatsApp Web chat and types a greeting.
4. It attaches the PDF and sends it.

This project models the part of the script whose behaviour can be stated
exactly. There are two pieces.

- **Per-row derivations** (`text.dfy`, `invitation.dfy`). These are Python's
  `str.strip()`, `replace(' ', '_')`, `os.path.join` for the output path, the
  deep-link URL, and `str.format` for the message. They are pure functions,
  with lemmas about the shape of each result and about which names collide.
- **The delivery loop** (`delivery.dfy`). Every browser or PDF call is an
  abstract step that may raise. An oracle `ok(row, action)` decides whether
  it does. The loop and `send_message_and_file` are methods proved against
  specification functions:
  - `Row` for one contact and `Process`/`Batch` for the whole run;
  - lemmas give ordering, stop-at-first-failure within a row,
    continue-after-caught-failure across rows, stop-on-escaping-failure, the
    `head(limit)` bound, and the files in the output folder after the run,
    starting from whatever it held before.

Whitespace, for `strip()`, is the set CPython's `str.isspace()` uses:
U+0009–000D, U+001C–001F, U+0020, U+0085, U+00A0, U+1680, U+2000–200A,
U+2028, U+2029, U+202F, U+205F and U+3000 (`Text.IsSpace`).

The navigation is easily read as the first of the send steps whose failure
is caught, but in the code it is not: `driver.get(url)` (script.py:126)
stands before the `try` (script.py:129). So a navigation that raises
aborts the batch, exactly like a PDF that cannot be created. (A number that
WhatsApp rejects usually still loads a page; the failure then shows up in
`find_element` inside the `try`, script.py:130, and is caught.) The model
follows the code.

## Model

| member | source | states |
|---|---|---|
| Text.IsSpace | script.py:155 | the characters `strip()` removes: U+0009–000D, U+001C–001F, U+0020, U+0085, U+00A0, U+1680, U+2000–200A, U+2028, U+2029, U+202F, U+205F, U+3000 |
| Text.Strip | script.py:155-156 | `s.strip()`: the slice between `Leading` and `Trailing`, empty when the cell is all whitespace; characterised by `StripIsStrip` and `StripUnique` |
| Text.Leading | script.py:155 | the count of leading characters that `strip()` removes: all of them are whitespace, and the next character (if any) is not |
| Text.Trailing | script.py:155 | where the trailing whitespace removed by `strip()` begins: everything after it is whitespace, and the character before it is not |
| Text.StripIsStrip | script.py:155-156 | `strip()` returns the slice of the cell that starts at the first non-space character, with only whitespace around it, and neither starts nor ends with whitespace |
| Text.StripUnique | script.py:155-156 | only one slice has those properties, so they characterise `strip()` completely |
| Text.StripPadded | script.py:155 | extra whitespace around a cell does not change the stripped value |
| Text.ReplaceSpaces | script.py:158 | `name.replace(' ', '_')` keeps the length, leaves no space, puts `_` where each space was and keeps every other character, tabs included, in place |
| Text.ReplaceSpacesCollide | script.py:158 | two names give the same sanitised name exactly when they differ only by space versus underscore at the same positions |
| Invitation.Join | script.py:158 | POSIX `os.path.join(a, b)`: an absolute `b` replaces `a`; otherwise one `/` goes between them unless `a` is empty or already ends in `/` |
| Invitation.FileName | script.py:158 | the file name `invitation_<name with spaces as underscores>.pdf` |
| Invitation.OutputPath | script.py:158 | `os.path.join("output", f"invitation_{...}.pdf")` is `output/invitation_<sanitised name>.pdf` |
| Invitation.OutputPathShape | script.py:158 | the path starts with `output/invitation_`, ends with `.pdf`, is 22 characters longer than the name and has no space in its name part |
| Invitation.OutputPathCollide | script.py:158 | two stripped names share an output path exactly when they differ only by space versus underscore |
| Invitation.PaddedNamesCollide | script.py:155-158 | names that differ only in surrounding whitespace share an output path |
| Invitation.DeepLink | script.py:125 | the chat URL `https://web.whatsapp.com/send?phone=<phone>&text&app_absent=0`; characterised by `DeepLinkRoundTrip` and `DeepLinkQuery` |
| Invitation.DeepLinkRoundTrip | script.py:125 | the phone number is carried verbatim in the chat URL and can be read back from it |
| Invitation.DeepLinkQuery | script.py:125 | the URL's query is `phone=<phone>`, an empty `text` and `app_absent=0`; each `&` inside the phone number adds one more parameter |
| Invitation.Format | script.py:132 | `template.format(name=...)`: `{{` and `}}` give single braces, `{name}` gives the name, a lone `}`, an unclosed `{` or any other field is an error; characterised by `FormatLiteral`, `FormatNameField` and `FormatMessage` (the template is `MessageTemplate`, script.py:82) |
| Invitation.FormatLiteral | script.py:132 | `str.format` copies text without braces unchanged |
| Invitation.FormatNameField | script.py:132 | `str.format` replaces the `{name}` field by the name, verbatim |
| Invitation.FormatMessage | script.py:82 | formatting the message template never fails and gives `"Hey " + name + ", here's your personalized invitation 🎉. Please see the attached PDF."` |
| Invitation.Message | script.py:132 | the typed message is the greeting, the name once, and the fixed closing |
| Invitation.MessageNamesRecipient | script.py:132 | the name can be read back from the message |
| Delivery.Head | script.py:88 | `head(limit)` keeps a prefix of the rows: `limit` rows when `0 <= limit <= n`, all rows when `limit > n`, and all but the last `-limit` rows when `limit < 0` |
| Delivery.Prepare | script.py:155-158 | the values a row derives from its cells: stripped name, stripped phone, and the output path of the stripped name |
| Delivery.Recipients | script.py:154-158 | one derived `Recipient` per row, in file order, each `Prepare` of its row |
| Delivery.TryBlock | script.py:130-145 | the ten statements inside the `try` of `send_message_and_file`, in source order, typing `Message(name)` and choosing the PDF path |
| Delivery.SendScript | script.py:124-145 | the navigation to `DeepLink(phone)`, then the `try` body |
| Delivery.Script | script.py:159-160 | the PDF rendering, then the send steps |
| Delivery.RunSteps | script.py:124-160 | steps run in order until one raises; the first `outside` steps escape, later failures are caught; characterised by `RunStepsFirstFailure` |
| Delivery.Send | script.py:124-151 | `send_message_and_file`: only the navigation stands outside the `try`; characterised by `SendStopsAtFirstFailure` |
| Delivery.Row | script.py:159-160 | one iteration of the loop: neither the PDF nor the navigation is inside a `try`; characterised by `RowStopsAtFirstFailure` |
| Delivery.Process | script.py:154-160 | the loop over the first `n` recipients, one run per row started, stopping after an escaping row; characterised by `ProcessShape`, `ProcessStarts`, `ProcessCompletes` |
| Delivery.Batch | script.py:154-160 | the loop over the derived values of `head(limit)`; characterised by `BatchFollowsFileOrder` |
| Delivery.Files | script.py:121-122 | the PDFs in the output folder after the runs, starting from what it held; characterised by `FilesLastWriter` and `FilesUnwritten` |
| Delivery.FirstFailure | script.py:129-146 | the index of the first step that raises: every earlier step succeeds, and that step fails |
| Delivery.RunStepsFirstFailure | script.py:124-151 | a row attempts exactly the steps up to and including the first failure; it is complete when no step fails; a failure escapes exactly when it is outside the `try`, and is caught otherwise |
| Delivery.SendStopsAtFirstFailure | script.py:124-151 | `send_message_and_file` runs its steps in their fixed order and stops at the first failure. It reports success only when every step succeeded. Only a navigation failure escapes |
| Delivery.RowStopsAtFirstFailure | script.py:159-160 | the PDF is created before any send step; a row stops at its first failure; the row escapes exactly when the PDF or the navigation fails |
| Delivery.OnlyFirstStepRenders | script.py:159-160 | the PDF rendering is the first step of a row and no send step writes a file |
| Delivery.RowUsesContact | script.py:124-160 | a contact's row draws the PDF for the stripped name at its output path, opens the chat URL of the stripped phone number, types a message naming the stripped name, and attaches the PDF it just rendered |
| Delivery.AbortedStays | script.py:154-160 | once a row's exception escapes, no later row is started |
| Delivery.ProcessShape | script.py:154-160 | run `k` is row `k`'s, in file order; every run but the last ended without escaping; fewer rows were started only when the last one escaped |
| Delivery.ProcessStarts | script.py:154-160 | row `k` is started exactly when no earlier row's exception escaped |
| Delivery.ContinueAfterCaught | script.py:150-151 | after a row whose failure was caught, the next row is still started |
| Delivery.RenderFailureStops | script.py:154-160 | a PDF that cannot be created (or a navigation that raises) makes that row the last one started, with an escaping status |
| Delivery.ProcessCompletes | script.py:154-160 | every row is processed and none escapes exactly when every PDF can be created and no navigation raises |
| Delivery.BatchFollowsFileOrder | script.py:88 | a run never starts more rows than `head(limit)` keeps, so never more than a non-negative limit; run `k` belongs to contact `k` of the file |
| Delivery.FilesLastWriter | script.py:121-122 | a path holds the name drawn by the last row that wrote it, whatever the folder held before |
| Delivery.FilesUnwritten | script.py:121-122 | a path no row wrote keeps what the existing output folder held: absent if it was absent, the earlier file otherwise |
| Delivery.BatchWrites | script.py:158-159 | row `k` writes the path derived from its name exactly when it was started and its PDF could be created |
| Delivery.LastRenderWins | script.py:158-159 | rows whose names collide share one file, and it holds the name of the last of them that was started and whose PDF was created |
| Delivery.RunUntilFailure | script.py:129-146 | the loop over the `try` body returns the first failing index and exactly the steps it attempted |
| Delivery.SendMessageAndFile | script.py:124-151 | navigation, then the `try` body up to its first failure, as the specification `Send` says |
| Delivery.HandleRow | script.py:159-160 | PDF then send, as the specification `Row` says |
| Delivery.DeliverAll | script.py:154-160 | the loop returns one run per started row, as `Process` says, stopping after the first escaping row |
| Delivery.Deliver | script.py:154-160 | the first `limit` contacts (script.py:88), their derived values, and the loop, as `Batch` says |

## Left out

- Package installation and import fallbacks (script.py:14-46), Chrome detection (script.py:49-59) and font download (script.py:62-69) are shell, network and file I/O.
- Argument parsing and CSV loading (script.py:77-80, 88) are left out. The contacts are a given sequence of text cells. The conversion `str(row[...])` of pandas values (for example a missing cell becoming `nan`) is not modelled. The default limit of 5 is not modelled: `limit` is a parameter.
- `os.makedirs` (script.py:85) is left out as an operation: the output folder is assumed to exist, and the files it already holds are a parameter (`init`) of `Delivery.Files`.
- Selenium setup and the login wait (script.py:91-101) are left out, and so is every `time.sleep` (script.py:101, 127, 134, 138, 142, 146). They have no logical effect.
- The PDF content (script.py:105-122) is left out; reportlab and PyPDF2 are foreign libraries. Creating a PDF is one fallible step. When it succeeds it writes the name to the derived path. A rendering that raises is modelled as writing nothing, although the real code may leave a partial file behind.
- Console output (script.py:148, 151, 162) is modelled only as the per-row status (`Sent`, `Caught`, `Uncaught`). Printing is assumed not to raise.
- The file chosen in the upload dialog is the relative path: `os.path.abspath` (script.py:141) depends on the working directory, which is not modelled.
- Delivery.Deliver derives every row's stripped name, phone and path before the loop, not at the top of each iteration (script.py:155-158). The derivations are pure and never raise, so the steps performed and their outcomes are the same.
- The oracle decides each step by row position and action only. The timing and state of the browser, and what WhatsApp does with the URL, are outside the model.
- Invitation.Format handles only what the script's template uses: literal text, `{{`, `}}` and the `{name}` field. Any other field (positional, indexed, with `!r` or a `:spec`) is reported as `UnknownField` rather than formatted.
- Invitation.OutputPath covers the POSIX form of `os.path.join`, with `/` as the separator.
- An escaping exception ends the Python process with a traceback. The model ends the batch and returns the runs so far, the last one with status `Uncaught`.
