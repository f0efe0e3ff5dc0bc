/** The delivery loop of the invitation script (script.py:124-160): each contact
    row, in file order, gets its PDF rendered and then a fixed sequence of
    browser steps. Browser and PDF library calls are abstract steps whose
    success is decided by an oracle; an exception inside the `try` of
    `send_message_and_file` ends only that row, any other exception ends the
    whole batch. */
module Delivery {
  import opened Text
  import opened Invitation

  /** One row of the contact list: its `Name` and `PhoneNumber` cells as text. */
  datatype Contact = Contact(name: string, phone: string)

  /** The steps the script performs for a row, each of which may raise. The
      navigation carries the URL it opens and typing carries the text typed. */
  datatype Action =
    | RenderPdf(name: string, path: string)  // create_custom_pdf (script.py:159)
    | OpenChat(url: string)                  // driver.get(url) (script.py:125-126)
    | FindComposer                           // script.py:130
    | ClickComposer                          // script.py:131
    | TypeText(text: string)                 // send_keys(template.format(...)) (script.py:132)
    | PressEnter                             // script.py:133
    | FindClip                               // script.py:136
    | ClickClip                              // script.py:137
    | FindFileInput                          // script.py:140
    | ChooseFile(path: string)               // script.py:141
    | FindSendButton                         // script.py:144
    | ClickSend                              // script.py:145

  /** The outside world: whether action `a`, performed for the row at position
      `i` of the processed list, completes without raising. */
  type Oracle = (nat, Action) -> bool

  /** How a row ended: everything sent (the success line of script.py:148), an
      exception caught by the `try` (script.py:150-151), or an exception that
      escapes and stops the batch. */
  datatype Status = Sent | Caught(at: Action) | Uncaught(at: Action)

  /** What one row did: the steps attempted, in order, and how it ended. */
  datatype RowRun = RowRun(performed: seq<Action>, status: Status)

  /** `contacts.head(limit)` of pandas: the first `limit` rows, or, for a
      negative `limit`, all rows but the last `-limit` (script.py:88). */
  function Head(rows: seq<Contact>, limit: int): (r: seq<Contact>)
    ensures |r| <= |rows| && r == rows[..|r|]
    ensures limit >= 0 ==> |r| == if limit <= |rows| then limit else |rows|
    ensures limit < 0 ==> |r| == if |rows| + limit >= 0 then |rows| + limit else 0
  {
    if limit >= 0 then (if limit <= |rows| then rows[..limit] else rows)
    else if |rows| + limit >= 0 then rows[..|rows| + limit]
    else []
  }

  /** The values the loop derives from a row before using it: the stripped
      name and phone (script.py:155-156) and the output path (script.py:158). */
  datatype Recipient = Recipient(name: string, phone: string, path: string)

  function Prepare(c: Contact): Recipient {
    var name := Strip(c.name);
    Recipient(name, Strip(c.phone), OutputPath(name))
  }

  /** The derived values of every row, in file order. */
  function Recipients(rows: seq<Contact>): (rs: seq<Recipient>)
    ensures |rs| == |rows|
    ensures forall k :: 0 <= k < |rows| ==> rs[k] == Prepare(rows[k])
  {
    seq(|rows|, k requires 0 <= k < |rows| => Prepare(rows[k]))
  }

  /** The statements inside the `try` of `send_message_and_file`, in order
      (script.py:130-145). */
  function TryBlock(name: string, path: string): seq<Action> {
    [FindComposer, ClickComposer, TypeText(Message(name)), PressEnter,
     FindClip, ClickClip, FindFileInput, ChooseFile(path), FindSendButton, ClickSend]
  }

  /** Everything `send_message_and_file` does when nothing raises: the
      navigation, which stands before the `try` (script.py:126), then the
      `try` body. */
  function SendScript(phone: string, name: string, path: string): seq<Action> {
    [OpenChat(DeepLink(phone))] + TryBlock(name, path)
  }

  /** Everything the loop body does for a recipient when nothing raises: the
      PDF (script.py:159), then the send sequence (script.py:160). */
  function Script(r: Recipient): seq<Action> {
    [RenderPdf(r.name, r.path)] + SendScript(r.phone, r.name, r.path)
  }

  /** Performs `steps` in order until one raises. The first `outside` steps
      stand outside any `try`, so their failure escapes; the failure of a
      later step is caught. */
  function RunSteps(i: nat, steps: seq<Action>, outside: nat, ok: Oracle): RowRun {
    if steps == [] then RowRun([], Sent)
    else if !ok(i, steps[0]) then
      RowRun([steps[0]], if outside > 0 then Uncaught(steps[0]) else Caught(steps[0]))
    else
      var rest := RunSteps(i, steps[1..], if outside > 0 then outside - 1 else 0, ok);
      RowRun([steps[0]] + rest.performed, rest.status)
  }

  /** `send_message_and_file(phone, name, path)` for row `i` (script.py:124-151):
      only the navigation stands outside the `try`. */
  function Send(i: nat, phone: string, name: string, path: string, ok: Oracle): RowRun {
    RunSteps(i, SendScript(phone, name, path), 1, ok)
  }

  /** The loop body for row `i` (script.py:159-160): neither the PDF nor the
      navigation that follows it is inside a `try`. */
  function Row(i: nat, r: Recipient, ok: Oracle): RowRun {
    RunSteps(i, Script(r), 2, ok)
  }

  /** Index of the first step that raises, or `|steps|` if none does. */
  function FirstFailure(i: nat, steps: seq<Action>, ok: Oracle): (k: nat)
    ensures k <= |steps|
    ensures forall j :: 0 <= j < k ==> ok(i, steps[j])
    ensures k < |steps| ==> !ok(i, steps[k])
  {
    if steps == [] || !ok(i, steps[0]) then 0 else 1 + FirstFailure(i, steps[1..], ok)
  }

  /** Running steps until one raises attempts exactly the steps up to and
      including the first failure; the run is complete when none fails, and
      otherwise the failure escapes exactly when it lies outside the `try`. */
  lemma {:induction false} RunStepsFirstFailure(i: nat, steps: seq<Action>, outside: nat, ok: Oracle)
    ensures var k := FirstFailure(i, steps, ok);
      RunSteps(i, steps, outside, ok) ==
        if k == |steps| then RowRun(steps, Sent)
        else RowRun(steps[..k + 1], if k < outside then Uncaught(steps[k]) else Caught(steps[k]))
    decreases |steps|
  {
    if steps != [] && ok(i, steps[0]) {
      var tail := steps[1..];
      var inner := if outside > 0 then outside - 1 else 0;
      RunStepsFirstFailure(i, tail, inner, ok);
      var k := FirstFailure(i, tail, ok);
      assert FirstFailure(i, steps, ok) == k + 1;
      if k < |tail| {
        assert [steps[0]] + tail[..k + 1] == steps[..k + 2];
        assert tail[k] == steps[k + 1];
        assert k < inner <==> k + 1 < outside;
      } else {
        assert [steps[0]] + tail == steps;
      }
    }
  }

  /** `run` is what executing `steps` in order gives when every step is
      attempted until the first one that raises: what ran is a prefix of the
      steps, all but its last step succeeded, the run is complete exactly when
      every step succeeds, and otherwise it ends at the step that raised. */
  predicate StopsAtFirstFailure(i: nat, steps: seq<Action>, run: RowRun, ok: Oracle) {
    && 1 <= |run.performed| <= |steps| && run.performed == steps[..|run.performed|]
    && (forall j :: 0 <= j < |run.performed| - 1 ==> ok(i, run.performed[j]))
    && (run.status == Sent <==> forall j :: 0 <= j < |steps| ==> ok(i, steps[j]))
    && (run.status == Sent ==> run.performed == steps)
    && (run.status != Sent ==> run.status.at == run.performed[|run.performed| - 1] && !ok(i, run.status.at))
  }

  lemma RunStepsStops(i: nat, steps: seq<Action>, outside: nat, ok: Oracle)
    requires steps != []
    ensures var run := RunSteps(i, steps, outside, ok);
      var k := FirstFailure(i, steps, ok);
      && StopsAtFirstFailure(i, steps, run, ok)
      && (run.status.Uncaught? <==> k < outside && k < |steps|)
  {
    RunStepsFirstFailure(i, steps, outside, ok);
    var k := FirstFailure(i, steps, ok);
    if k < |steps| {
      assert steps[..k + 1][k] == steps[k];
    }
  }

  /** Within one recipient the send steps run in their fixed order; the first
      one to raise is the last one attempted; only a navigation failure escapes
      the `try`, every later failure is caught. */
  lemma SendStopsAtFirstFailure(i: nat, phone: string, name: string, path: string, ok: Oracle)
    ensures var s := SendScript(phone, name, path);
      var run := Send(i, phone, name, path, ok);
      && StopsAtFirstFailure(i, s, run, ok)
      && (run.status.Uncaught? <==> !ok(i, s[0]))
  {
    RunStepsStops(i, SendScript(phone, name, path), 1, ok);
  }

  /** For one row the PDF is rendered before any send step; a render or
      navigation failure escapes and is the last thing the row does. */
  lemma RowStopsAtFirstFailure(i: nat, r: Recipient, ok: Oracle)
    ensures var s := Script(r);
      var run := Row(i, r, ok);
      && StopsAtFirstFailure(i, s, run, ok)
      && (run.status.Uncaught? <==> !ok(i, s[0]) || !ok(i, s[1]))
  {
    RunStepsStops(i, Script(r), 2, ok);
  }

  /** Only the first step of a row writes a file. */
  lemma OnlyFirstStepRenders(r: Recipient)
    ensures Script(r)[0] == RenderPdf(r.name, r.path)
    ensures forall j :: 1 <= j < |Script(r)| ==> !Script(r)[j].RenderPdf?
  {
  }

  /** A contact's row works on the values derived from its cells: the PDF is
      drawn for the stripped name at that name's output path, the chat opened
      is the stripped phone number's, the text typed names the stripped name,
      and the file attached is the PDF just rendered. */
  lemma RowUsesContact(c: Contact)
    ensures var s := Script(Prepare(c));
      var name := Strip(c.name);
      && s[0] == RenderPdf(name, OutputPath(name))
      && s[1].OpenChat? && PhoneOf(s[1].url) == Some(Strip(c.phone))
      && s[4].TypeText? && s[4].text[|Greeting|..|s[4].text| - |Closing|] == name
      && s[9] == ChooseFile(s[0].path)
  {
    DeepLinkRoundTrip(Strip(c.phone));
    MessageNamesRecipient(Strip(c.name));
  }

  /** The batch has stopped: its last started row ended with an escaping exception. */
  predicate Aborted(runs: seq<RowRun>) {
    |runs| > 0 && runs[|runs| - 1].status.Uncaught?
  }

  /** The loop of script.py:154-160 over the first `n` recipients: one run per
      row started. */
  function Process(rs: seq<Recipient>, n: nat, ok: Oracle): seq<RowRun>
    requires n <= |rs|
  {
    if n == 0 then []
    else
      var prev := Process(rs, n - 1, ok);
      if Aborted(prev) then prev else prev + [Row(n - 1, rs[n - 1], ok)]
  }

  /** A whole run of the script over its contact list (script.py:88, 154-160). */
  function Batch(contacts: seq<Contact>, limit: int, ok: Oracle): seq<RowRun> {
    var rs := Recipients(Head(contacts, limit));
    Process(rs, |rs|, ok)
  }

  /** Once a row has escaped, later rows are never started. */
  lemma {:induction false} AbortedStays(rs: seq<Recipient>, m: nat, n: nat, ok: Oracle)
    requires m <= n <= |rs|
    requires Aborted(Process(rs, m, ok))
    ensures Process(rs, n, ok) == Process(rs, m, ok)
    decreases n
  {
    if n > m {
      AbortedStays(rs, m, n - 1, ok);
    }
  }

  /** The runs of a batch are, in order, the rows of the list from the first
      one; every run but the last ended without escaping; and fewer rows than
      available were started only when the last one escaped. */
  lemma {:induction false} ProcessShape(rs: seq<Recipient>, n: nat, ok: Oracle)
    requires n <= |rs|
    ensures var runs := Process(rs, n, ok);
      && |runs| <= n
      && (forall k :: 0 <= k < |runs| ==> runs[k] == Row(k, rs[k], ok))
      && (forall k :: 0 <= k < |runs| - 1 ==> !runs[k].status.Uncaught?)
      && (|runs| < n ==> Aborted(runs))
    decreases n
  {
    if n > 0 {
      ProcessShape(rs, n - 1, ok);
    }
  }

  /** Row `k` is started exactly when no earlier row escaped: a caught failure
      never stops the loop, an escaping one stops it at once. */
  lemma ProcessStarts(rs: seq<Recipient>, n: nat, ok: Oracle, k: nat)
    requires n <= |rs| && k < n
    ensures k < |Process(rs, n, ok)| <==> forall j :: 0 <= j < k ==> !Row(j, rs[j], ok).status.Uncaught?
  {
    var runs := Process(rs, n, ok);
    ProcessShape(rs, n, ok);
    if k < |runs| {
      forall j | 0 <= j < k ensures !Row(j, rs[j], ok).status.Uncaught? {
        assert runs[j] == Row(j, rs[j], ok);
      }
    } else {
      var last := |runs| - 1;
      assert runs[last] == Row(last, rs[last], ok);
    }
  }

  /** `Batch` in terms of the contact list: the run at position `k` is the
      `k`-th contact's, never more runs than rows kept by `head`, so never more
      than a non-negative `limit`. */
  lemma BatchFollowsFileOrder(contacts: seq<Contact>, limit: int, ok: Oracle)
    ensures var runs := Batch(contacts, limit, ok);
      && |runs| <= |Head(contacts, limit)|
      && (limit >= 0 ==> |runs| <= limit)
      && forall k :: 0 <= k < |runs| ==> runs[k] == Row(k, Prepare(contacts[k]), ok)
  {
    var rows := Head(contacts, limit);
    var rs := Recipients(rows);
    ProcessShape(rs, |rs|, ok);
    forall k | 0 <= k < |Batch(contacts, limit, ok)|
      ensures Batch(contacts, limit, ok)[k] == Row(k, Prepare(contacts[k]), ok)
    {
      assert rows[k] == contacts[k];
    }
  }

  /** A send failure is caught and the loop goes on: after a row that did not
      escape, the next row of the list is started. */
  lemma ContinueAfterCaught(rs: seq<Recipient>, n: nat, ok: Oracle, k: nat)
    requires k + 1 < n <= |rs|
    requires k < |Process(rs, n, ok)| && !Process(rs, n, ok)[k].status.Uncaught?
    ensures k + 1 < |Process(rs, n, ok)|
  {
    ProcessShape(rs, n, ok);
  }

  /** A PDF that cannot be created (or a navigation that raises) stops the
      batch: that row is the last one started. */
  lemma RenderFailureStops(rs: seq<Recipient>, n: nat, ok: Oracle, k: nat)
    requires k < n <= |rs| && k < |Process(rs, n, ok)|
    requires !ok(k, RenderPdf(rs[k].name, rs[k].path)) || !ok(k, OpenChat(DeepLink(rs[k].phone)))
    ensures |Process(rs, n, ok)| == k + 1
    ensures Process(rs, n, ok)[k].status.Uncaught?
  {
    ProcessShape(rs, n, ok);
    RowStopsAtFirstFailure(k, rs[k], ok);
    assert Script(rs[k])[1] == OpenChat(DeepLink(rs[k].phone));
  }

  /** Every row is started and none stops the batch exactly when every PDF can
      be created and no navigation raises. */
  lemma ProcessCompletes(rs: seq<Recipient>, ok: Oracle)
    ensures var runs := Process(rs, |rs|, ok);
      (|runs| == |rs| && !Aborted(runs)) <==>
      forall k :: 0 <= k < |rs| ==> ok(k, RenderPdf(rs[k].name, rs[k].path)) && ok(k, OpenChat(DeepLink(rs[k].phone)))
  {
    var runs := Process(rs, |rs|, ok);
    ProcessShape(rs, |rs|, ok);
    forall k | 0 <= k < |rs|
      ensures Row(k, rs[k], ok).status.Uncaught? <==>
        !ok(k, RenderPdf(rs[k].name, rs[k].path)) || !ok(k, OpenChat(DeepLink(rs[k].phone)))
    {
      RowStopsAtFirstFailure(k, rs[k], ok);
      assert Script(rs[k])[1] == OpenChat(DeepLink(rs[k].phone));
    }
    if |runs| == |rs| && !Aborted(runs) {
      forall k | 0 <= k < |rs|
        ensures ok(k, RenderPdf(rs[k].name, rs[k].path)) && ok(k, OpenChat(DeepLink(rs[k].phone)))
      {
        assert runs[k] == Row(k, rs[k], ok);
      }
    }
    if |runs| < |rs| {
      var last := |runs| - 1;
      assert runs[last] == Row(last, rs[last], ok);
    }
  }

  /** Whether row `k` of `runs` wrote the file `p`: its first step was a PDF
      rendering to `p` that completed. */
  predicate Writes(runs: seq<RowRun>, ok: Oracle, k: nat, p: string) {
    k < |runs| && |runs[k].performed| > 0 && runs[k].performed[0].RenderPdf?
    && runs[k].performed[0].path == p && ok(k, runs[k].performed[0])
  }

  /** The PDFs on disk after the rows in `runs`, starting from the files
      `init` the output folder already held (`exist_ok=True`, script.py:85):
      each completed rendering writes (or overwrites) its path with the name
      drawn on it. */
  function Files(init: map<string, string>, runs: seq<RowRun>, ok: Oracle): map<string, string> {
    if runs == [] then init
    else
      var k := |runs| - 1;
      var files := Files(init, runs[..k], ok);
      var a := runs[k].performed;
      if |a| > 0 && a[0].RenderPdf? && ok(k, a[0]) then files[a[0].path := a[0].name] else files
  }

  /** A path holds a file exactly when some row wrote it, and it holds the name
      of the last row that did: a later PDF overwrites an earlier one. */
  lemma {:induction false} FilesLastWriter(init: map<string, string>, runs: seq<RowRun>, ok: Oracle, p: string, k: nat)
    requires Writes(runs, ok, k, p)
    requires forall j :: k < j < |runs| ==> !Writes(runs, ok, j, p)
    ensures p in Files(init, runs, ok) && Files(init, runs, ok)[p] == runs[k].performed[0].name
    decreases |runs|
  {
    var last := |runs| - 1;
    var prefix := runs[..last];
    if k < last {
      assert !Writes(runs, ok, last, p);
      forall j | k < j < |prefix| ensures !Writes(prefix, ok, j, p) {
        assert !Writes(runs, ok, j, p);
      }
      assert Writes(prefix, ok, k, p);
      FilesLastWriter(init, prefix, ok, p, k);
    }
  }

  /** A path no row wrote keeps what the folder held before the run: absent if
      it was absent, the earlier file otherwise. */
  lemma {:induction false} FilesUnwritten(init: map<string, string>, runs: seq<RowRun>, ok: Oracle, p: string)
    requires forall j :: 0 <= j < |runs| ==> !Writes(runs, ok, j, p)
    ensures p in Files(init, runs, ok) <==> p in init
    ensures p in init ==> Files(init, runs, ok)[p] == init[p]
    decreases |runs|
  {
    if runs != [] {
      var last := |runs| - 1;
      var prefix := runs[..last];
      forall j | 0 <= j < |prefix| ensures !Writes(prefix, ok, j, p) {
        assert !Writes(runs, ok, j, p);
      }
      assert !Writes(runs, ok, last, p);
      FilesUnwritten(init, prefix, ok, p);
    }
  }

  /** In a batch, row `k` writes exactly the path derived from its name, and
      does so when it was started and its PDF could be created. */
  lemma BatchWrites(rs: seq<Recipient>, ok: Oracle, k: nat, p: string)
    requires k < |rs|
    ensures var runs := Process(rs, |rs|, ok);
      Writes(runs, ok, k, p) <==> k < |runs| && rs[k].path == p && ok(k, RenderPdf(rs[k].name, rs[k].path))
  {
    var runs := Process(rs, |rs|, ok);
    ProcessShape(rs, |rs|, ok);
    if k < |runs| {
      RowStopsAtFirstFailure(k, rs[k], ok);
      assert runs[k].performed[0] == Script(rs[k])[0];
    }
  }

  /** Rows whose names give the same output path (`OutputPathCollide`) share
      one file: after the batch it holds the name of the last of them that was
      started and whose PDF was created, whatever the folder held before.
      (`|Process(...)| <= |rs|` always holds, by `ProcessShape`; stating it
      lets the preconditions index `rs` at every started row.) */
  lemma LastRenderWins(init: map<string, string>, rs: seq<Recipient>, ok: Oracle, k: nat)
    requires k < |Process(rs, |rs|, ok)| <= |rs|
    requires ok(k, RenderPdf(rs[k].name, rs[k].path))
    requires forall m :: k < m < |Process(rs, |rs|, ok)| ==>
      rs[m].path != rs[k].path || !ok(m, RenderPdf(rs[m].name, rs[m].path))
    ensures var files := Files(init, Process(rs, |rs|, ok), ok);
      rs[k].path in files && files[rs[k].path] == rs[k].name
  {
    var runs := Process(rs, |rs|, ok);
    var p := rs[k].path;
    ProcessShape(rs, |rs|, ok);
    BatchWrites(rs, ok, k, p);
    forall m | k < m < |runs| ensures !Writes(runs, ok, m, p) {
      BatchWrites(rs, ok, m, p);
    }
    RowStopsAtFirstFailure(k, rs[k], ok);
    assert runs[k].performed[0] == Script(rs[k])[0];
    FilesLastWriter(init, runs, ok, p, k);
  }

  /** Runs `steps` in order until one raises (the `try` body of
      script.py:129-146): returns what was attempted and where it stopped. */
  method RunUntilFailure(i: nat, steps: seq<Action>, ok: Oracle) returns (performed: seq<Action>, k: nat)
    ensures k == FirstFailure(i, steps, ok)
    ensures performed == if k < |steps| then steps[..k + 1] else steps
  {
    k := 0;
    while k < |steps| && ok(i, steps[k])
      invariant k <= |steps|
      invariant forall j :: 0 <= j < k ==> ok(i, steps[j])
    {
      k := k + 1;
    }
    FirstFailureUnique(i, steps, k, ok);
    performed := if k < |steps| then steps[..k + 1] else steps;
  }

  /** The contract of `FirstFailure` determines its result. */
  lemma FirstFailureUnique(i: nat, steps: seq<Action>, k: nat, ok: Oracle)
    requires k <= |steps|
    requires forall j :: 0 <= j < k ==> ok(i, steps[j])
    requires k < |steps| ==> !ok(i, steps[k])
    ensures FirstFailure(i, steps, ok) == k
  {
  }

  /** `send_message_and_file` (script.py:124-151), step by step: the navigation
      first, outside the `try`, then the `try` body up to its first failure. */
  method SendMessageAndFile(i: nat, phone: string, name: string, path: string, ok: Oracle)
    returns (performed: seq<Action>, status: Status)
    ensures RowRun(performed, status) == Send(i, phone, name, path, ok)
  {
    var open := OpenChat(DeepLink(phone));
    if !ok(i, open) {
      return [open], Uncaught(open);
    }
    var steps := TryBlock(name, path);
    var done, k := RunUntilFailure(i, steps, ok);
    performed := [open] + done;
    status := if k < |steps| then Caught(steps[k]) else Sent;
    assert SendScript(phone, name, path)[1..] == steps;
    RunStepsFirstFailure(i, steps, 0, ok);
  }

  /** The loop body for one recipient (script.py:159-160). */
  method HandleRow(i: nat, r: Recipient, ok: Oracle) returns (performed: seq<Action>, status: Status)
    ensures RowRun(performed, status) == Row(i, r, ok)
  {
    var render := RenderPdf(r.name, r.path);
    if !ok(i, render) {
      return [render], Uncaught(render);
    }
    var sent;
    sent, status := SendMessageAndFile(i, r.phone, r.name, r.path, ok);
    performed := [render] + sent;
    assert Script(r)[1..] == SendScript(r.phone, r.name, r.path);
  }

  /** The main loop (script.py:154-160): rows in order, one run each, until a
      row's exception escapes. */
  method DeliverAll(rs: seq<Recipient>, ok: Oracle) returns (runs: seq<RowRun>)
    ensures runs == Process(rs, |rs|, ok)
  {
    runs := [];
    var i := 0;
    while i < |rs|
      invariant i <= |rs|
      invariant runs == Process(rs, i, ok)
      invariant !Aborted(runs)
    {
      var performed, status := HandleRow(i, rs[i], ok);
      runs := runs + [RowRun(performed, status)];
      if status.Uncaught? {
        AbortedStays(rs, i + 1, |rs|, ok);
        return;
      }
      i := i + 1;
    }
  }

  /** The whole script after setup: the first `limit` contacts
      (script.py:88), their derived values, and the loop. */
  method Deliver(contacts: seq<Contact>, limit: int, ok: Oracle) returns (runs: seq<RowRun>)
    ensures runs == Batch(contacts, limit, ok)
  {
    var rows := Head(contacts, limit);
    runs := DeliverAll(Recipients(rows), ok);
  }
}
