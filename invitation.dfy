/** What the script derives for one contact row: the output PDF path, the
    WhatsApp deep link and the message text (script.py:74, 82, 125, 132, 158). */
module Invitation {
  import opened Text

  datatype Option<T> = None | Some(value: T)

  datatype Result<T, E> = Ok(value: T) | Err(error: E)

  /** Directory that receives the personalised PDFs (script.py:74). */
  const OutputFolder: string := "output"

  /** `os.path.join(a, b)` on POSIX: an absolute `b` replaces `a`; otherwise one
      separator is put between them unless `a` is empty or already ends in one. */
  function Join(a: string, b: string): string {
    if |b| > 0 && b[0] == '/' then b
    else if a == [] || a[|a| - 1] == '/' then a + b
    else a + "/" + b
  }

  /** File name of the invitation for an (already stripped) name. */
  function FileName(name: string): string {
    "invitation_" + ReplaceSpaces(name) + ".pdf"
  }

  /** Where the invitation for `name` is written (script.py:158). */
  function OutputPath(name: string): (p: string)
    ensures p == OutputFolder + "/" + "invitation_" + ReplaceSpaces(name) + ".pdf"
  {
    var file := FileName(name);
    assert file[0] == 'i';
    Join(OutputFolder, file)
  }

  /** The path always sits in the output folder, starts its file name with
      `invitation_`, ends with `.pdf`, is as long as the name plus a fixed
      amount, and the name part holds no space. */
  lemma OutputPathShape(name: string)
    ensures var p := OutputPath(name);
      && p[..18] == "output/invitation_"
      && p[|p| - 4..] == ".pdf"
      && |p| == |name| + 22
      && ' ' !in p[18..|p| - 4]
  {
    var p := OutputPath(name);
    assert p[18..|p| - 4] == ReplaceSpaces(name);
  }

  /** Two stripped names share an output path exactly when they differ only by
      space versus underscore; the later PDF then overwrites the earlier one. */
  lemma OutputPathCollide(a: string, b: string)
    ensures OutputPath(a) == OutputPath(b) <==> SameUpToSpaceOrUnderscore(a, b)
  {
    ReplaceSpacesCollide(a, b);
    var ra, rb := ReplaceSpaces(a), ReplaceSpaces(b);
    if OutputPath(a) == OutputPath(b) {
      assert ra == OutputPath(a)[18..|OutputPath(a)| - 4];
      assert rb == OutputPath(b)[18..|OutputPath(b)| - 4];
    }
  }

  /** Raw cells that differ only by surrounding whitespace give one path
      (script.py:155 strips before script.py:158 derives the path). */
  lemma PaddedNamesCollide(p: string, name: string, q: string)
    requires AllSpace(p) && AllSpace(q)
    ensures OutputPath(Strip(p + name + q)) == OutputPath(Strip(name))
  {
    StripPadded(p, name, q);
  }

  const DeepLinkBase: string := "https://web.whatsapp.com/send"
  const DeepLinkPrefix: string := DeepLinkBase + "?phone="
  const DeepLinkSuffix: string := "&text&app_absent=0"

  /** The chat URL opened for a phone number (script.py:125). */
  function DeepLink(phone: string): string {
    DeepLinkPrefix + phone + DeepLinkSuffix
  }

  /** Recovers the phone number from a deep link, if the URL has that shape. */
  function PhoneOf(url: string): Option<string> {
    if |url| >= |DeepLinkPrefix| + |DeepLinkSuffix|
       && url[..|DeepLinkPrefix|] == DeepLinkPrefix
       && url[|url| - |DeepLinkSuffix|..] == DeepLinkSuffix
    then Some(url[|DeepLinkPrefix|..|url| - |DeepLinkSuffix|])
    else None
  }

  /** The phone number is carried verbatim: it can be read back from the link,
      so different numbers never open the same chat URL. */
  lemma DeepLinkRoundTrip(phone: string)
    ensures PhoneOf(DeepLink(phone)) == Some(phone)
  {
    var url := DeepLink(phone);
    assert url[..|DeepLinkPrefix|] == DeepLinkPrefix;
    assert url[|url| - |DeepLinkSuffix|..] == DeepLinkSuffix;
    assert url[|DeepLinkPrefix|..|url| - |DeepLinkSuffix|] == phone;
  }

  /** The query parameters of a URL: the text after the first `?`, split on `&`. */
  function QueryParams(url: string): seq<string> {
    Split(AfterFirst(url, '?'), '&')
  }

  /** A phone number without `&` yields exactly the parameters `phone=<phone>`,
      a bare `text` (no pre-filled message) and `app_absent=0`; every `&` in
      the number adds one more parameter. */
  lemma DeepLinkQuery(phone: string)
    ensures |QueryParams(DeepLink(phone))| == 3 + Count(phone, '&')
    ensures '&' !in phone ==>
      QueryParams(DeepLink(phone)) == ["phone=" + phone, "text", "app_absent=0"]
  {
    DeepLinkQueryAfterMark(phone);
    QueryPieces(phone, ("phone=" + phone) + ['&'] + "text" + ['&'] + "app_absent=0");
  }

  /** Everything after the `?` of a deep link. */
  lemma DeepLinkQueryAfterMark(phone: string)
    ensures AfterFirst(DeepLink(phone), '?') == ("phone=" + phone) + ['&'] + "text" + ['&'] + "app_absent=0"
  {
    var query := ("phone=" + phone) + ['&'] + "text" + ['&'] + "app_absent=0";
    assert DeepLink(phone) == DeepLinkBase + ['?'] + query;
    AfterFirstSkips(DeepLinkBase, '?', query);
  }

  lemma QueryPieces(phone: string, query: string)
    requires query == ("phone=" + phone) + ['&'] + "text" + ['&'] + "app_absent=0"
    ensures |Split(query, '&')| == 3 + Count(phone, '&')
    ensures '&' !in phone ==> Split(query, '&') == ["phone=" + phone, "text", "app_absent=0"]
  {
    var first, text, absent := "phone=" + phone, "text", "app_absent=0";
    SplitCount(query, '&');
    CountThree(first, text, absent, '&');
    CountAppend("phone=", phone, '&');
    CountAbsent("phone=", '&');
    CountAbsent(text, '&');
    CountAbsent(absent, '&');
    if '&' !in phone {
      SplitThree(first, text, absent, '&');
    }
  }

  /** Why `str.format` refused a template. */
  datatype FormatError = SingleClosingBrace | UnclosedField | UnknownField(field: string)

  function Prefixed(p: string, r: Result<string, FormatError>): Result<string, FormatError> {
    match r
    case Ok(v) => Ok(p + v)
    case Err(e) => Err(e)
  }

  /** Position of the first `}` in `s`, or `|s|` if there is none. */
  function CloseAt(s: string): (k: nat)
    ensures k <= |s| && '}' !in s[..k]
    ensures k < |s| ==> s[k] == '}'
  {
    if s == [] || s[0] == '}' then 0 else 1 + CloseAt(s[1..])
  }

  /** `template.format(name=name)`: `{{` and `}}` stand for single braces, the
      field `{name}` is replaced by `name` (whose own braces are not read
      again), and any other use of a brace is an error. */
  function Format(template: string, name: string): Result<string, FormatError>
    decreases |template|
  {
    var t := template;
    if t == [] then Ok([])
    else if t[0] == '{' && |t| > 1 && t[1] == '{' then Prefixed("{", Format(t[2..], name))
    else if t[0] == '}' && |t| > 1 && t[1] == '}' then Prefixed("}", Format(t[2..], name))
    else if t[0] == '}' then Err(SingleClosingBrace)
    else if t[0] == '{' then
      var k := CloseAt(t[1..]);
      if k == |t| - 1 then Err(UnclosedField)
      else if t[1..k + 1] == "name" then Prefixed(name, Format(t[k + 2..], name))
      else Err(UnknownField(t[1..k + 1]))
    else Prefixed([t[0]], Format(t[1..], name))
  }

  predicate NoBraces(s: string) {
    '{' !in s && '}' !in s
  }

  /** Text without braces is copied as it is. */
  lemma {:induction false} FormatLiteral(a: string, b: string, name: string)
    requires NoBraces(a)
    ensures Format(a + b, name) == Prefixed(a, Format(b, name))
    decreases |a|
  {
    if a == [] {
      assert a + b == b;
      match Format(b, name) {
        case Ok(v) => assert a + v == v;
        case Err(_) =>
      }
    } else {
      assert (a + b)[0] == a[0] && (a + b)[1..] == a[1..] + b;
      FormatLiteral(a[1..], b, name);
      match Format(b, name) {
        case Ok(v) => assert [a[0]] + (a[1..] + v) == a + v;
        case Err(_) =>
      }
    }
  }

  /** The `{name}` field is replaced by the name, verbatim. */
  lemma FormatNameField(b: string, name: string)
    ensures Format("{name}" + b, name) == Prefixed(name, Format(b, name))
  {
    var t := "{name}" + b;
    var s := t[1..];
    assert s[..4] == "name" && s[4] == '}';
    var k := CloseAt(s);
    assert k == 4;
    assert t[1..k + 1] == "name";
    assert t[k + 2..] == b;
  }

  const Greeting: string := "Hey "
  const Closing: string := ", here's your personalized invitation "
                           + "\U{1F389}. Please see the attached PDF."

  /** The message template of script.py:82 (one literal there, written here
      as a concatenation of its pieces). */
  const MessageTemplate: string := Greeting + "{name}" + Closing

  lemma TextHasNoBraces()
    ensures NoBraces(Greeting) && NoBraces(Closing)
  {
    ClosingHeadHasNoBraces();
    ClosingTailHasNoBraces();
  }

  lemma ClosingHeadHasNoBraces()
    ensures NoBraces(", here's your personalized invitation ")
  {
  }

  lemma ClosingTailHasNoBraces()
    ensures NoBraces("\U{1F389}. Please see the attached PDF.")
  {
  }

  /** The template has one `{name}` field and no other brace, so formatting
      never fails and puts the name in exactly once. */
  lemma FormatMessage(name: string)
    ensures Format(MessageTemplate, name) == Ok(Greeting + name + Closing)
  {
    TextHasNoBraces();
    assert MessageTemplate == Greeting + ("{name}" + Closing);
    FormatLiteral(Greeting, "{name}" + Closing, name);
    FormatNameField(Closing, name);
    FormatLiteral(Closing, [], name);
    assert Closing + [] == Closing;
    assert Greeting + (name + Closing) == Greeting + name + Closing;
  }

  /** The text typed into the chat for `name` (script.py:132). */
  function Message(name: string): (m: string)
    ensures m == Greeting + name + Closing
  {
    FormatMessage(name);
    Format(MessageTemplate, name).value
  }

  /** The name can be read back from the message, so different names give
      different messages. */
  lemma MessageNamesRecipient(name: string)
    ensures var m := Message(name);
      m[|Greeting|..|m| - |Closing|] == name
  {
  }
}
