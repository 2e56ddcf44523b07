/** The text of the IMAP dialogue: quoted strings, tags and tagged responses. */
module ImapText {
  import opened Basics
  import opened Options

  // ---------- Quoted strings ----------

  /** `validate_imap_string`. */
  predicate IsSafe(value: string) {
    forall c :: c in value ==> !IsCrLf(c)
  }

  /** quoted-specials of section 9 of RFC 3501. */
  predicate IsSpecial(c: char) {
    c == '\\' || c == '"'
  }

  function Escape(c: char): string {
    if IsSpecial(c) then ['\\', c] else [c]
  }

  function Escaped(value: string): string {
    if value == "" then "" else Escape(value[0]) + Escaped(value[1..])
  }

  function Quoted(value: string): string {
    "\"" + Escaped(value) + "\""
  }

  /** `validate_imap_string`, as a scan. */
  method ValidateImapString(value: string) returns (ok: bool)
    ensures ok <==> IsSafe(value)
  {
    for k := 0 to |value|
      invariant forall j :: 0 <= j < k ==> !IsCrLf(value[j])
    {
      if IsCrLf(value[k]) {
        return false;
      }
    }
    ok := true;
  }

  lemma QuoteNext(quoted: string, value: string, k: nat)
    requires k < |value|
    ensures quoted + Escaped(value[k..]) + "\"" == (quoted + Escape(value[k])) + Escaped(value[k + 1..]) + "\""
  {
    assert value[k..][1..] == value[k + 1..];
  }

  /** `quote_imap`: one pass over the characters. */
  method QuoteImap(value: string) returns (quoted: string)
    ensures quoted == Quoted(value)
  {
    quoted := "\"";
    for k := 0 to |value|
      invariant Quoted(value) == quoted + Escaped(value[k..]) + "\""
    {
      QuoteNext(quoted, value, k);
      if value[k] == '\\' {
        quoted := quoted + "\\\\";
      } else if value[k] == '"' {
        quoted := quoted + "\\\"";
      } else {
        quoted := quoted + [value[k]];
      }
    }
    quoted := quoted + "\"";
  }

  /** TEXT-CHAR of section 9 of RFC 3501: a seven-bit character other than NUL, CR and LF. */
  predicate IsTextChar(c: char) {
    1 <= c as int <= 0x7F && !IsCrLf(c)
  }

  /** The rest of a quoted string after its opening quote, when `text` says which characters may stand in it. */
  function ParseBody(text: char -> bool, s: string): Option<(string, string)> {
    if s == "" then None
    else if s[0] == '"' then Some(("", s[1..]))
    else if s[0] == '\\' then
      if |s| < 2 || !IsSpecial(s[1]) then None
      else match ParseBody(text, s[2..])
        case None => None
        case Some((value, rest)) => Some(([s[1]] + value, rest))
    else if !text(s[0]) then None
    else match ParseBody(text, s[1..])
      case None => None
      case Some((value, rest)) => Some(([s[0]] + value, rest))
  }

  function ParseQuoted(text: char -> bool, s: string): Option<(string, string)> {
    if s == "" || s[0] != '"' then None else ParseBody(text, s[1..])
  }

  ghost predicate Fits(text: char -> bool, value: string) {
    forall c :: c in value ==> IsSpecial(c) || text(c)
  }

  lemma {:induction false} BodyParsesBack(text: char -> bool, value: string, rest: string)
    ensures ParseBody(text, Escaped(value) + "\"" + rest) == if Fits(text, value) then Some((value, rest)) else None
  {
    var s := Escaped(value) + "\"" + rest;
    if value != "" {
      BodyParsesBack(text, value[1..], rest);
      assert value == [value[0]] + value[1..];
      assert Fits(text, value) <==> (IsSpecial(value[0]) || text(value[0])) && Fits(text, value[1..]);
      if IsSpecial(value[0]) {
        assert s[2..] == Escaped(value[1..]) + "\"" + rest;
      } else {
        assert s[1..] == Escaped(value[1..]) + "\"" + rest;
      }
    } else {
      assert s[1..] == rest;
    }
  }

  /** A quoted string reads back as its value exactly when every character may stand in it, and else not at all. */
  lemma QuotedParsesBack(text: char -> bool, value: string, rest: string)
    ensures ParseQuoted(text, Quoted(value) + rest) == if Fits(text, value) then Some((value, rest)) else None
  {
    assert (Quoted(value) + rest)[1..] == Escaped(value) + "\"" + rest;
    BodyParsesBack(text, value, rest);
  }

  // ---------- The LOGIN command ----------

  datatype ImapError = UnsafeImapString

  function LoginLine(tag: string, user: string, password: string): string {
    tag + " LOGIN " + Quoted(user) + " " + Quoted(password) + "\r\n"
  }

  /** The command `authenticate_password` writes, when it writes one. */
  method Login(tag: string, user: string, password: string) returns (line: Option<string>)
    ensures line == if IsSafe(user) && IsSafe(password) then Some(LoginLine(tag, user, password)) else None
  {
    var userOk := ValidateImapString(user);
    var passwordOk := ValidateImapString(password);
    if !userOk || !passwordOk {
      return None;
    }
    var u := QuoteImap(user);
    var p := QuoteImap(password);
    line := Some(tag + " LOGIN " + u + " " + p + "\r\n");
  }

  /** A server's reading of it: the tag, the word, two quoted strings and the end of the line. */
  function ParseLogin(text: char -> bool, tag: string, line: string): Option<(string, string)> {
    var head := tag + " LOGIN ";
    if !(head <= line) then None
    else match ParseQuoted(text, line[|head|..])
      case None => None
      case Some((user, rest)) =>
        if rest == "" || rest[0] != ' ' then None
        else match ParseQuoted(text, rest[1..])
          case None => None
          case Some((password, end)) => if end == "\r\n" then Some((user, password)) else None
  }

  lemma LoginSplits(tag: string, user: string, password: string)
    ensures var line, head := LoginLine(tag, user, password), tag + " LOGIN ";
            head <= line && line[|head|..] == Quoted(user) + (" " + Quoted(password) + "\r\n")
  {
    assert LoginLine(tag, user, password) == tag + " LOGIN " + (Quoted(user) + (" " + Quoted(password) + "\r\n"));
  }

  /** The LOGIN line reads back as exactly the pair it was made from, or not at all. */
  lemma LoginParsesBack(text: char -> bool, tag: string, user: string, password: string)
    ensures ParseLogin(text, tag, LoginLine(tag, user, password))
         == if Fits(text, user) && Fits(text, password) then Some((user, password)) else None
  {
    var head := tag + " LOGIN ";
    var tail := " " + Quoted(password) + "\r\n";
    LoginSplits(tag, user, password);
    QuotedParsesBack(text, user, tail);
    assert tail[0] == ' ' && tail[1..] == Quoted(password) + "\r\n";
    QuotedParsesBack(text, password, "\r\n");
  }

  /** What the check against CR and LF guarantees, for every user name and password it lets pass: read with quoted
      strings of any characters but CR and LF the line is that pair; read by the letter of RFC 3501 it is so exactly
      when all their characters are TEXT-CHARs, which the check does not ask for. */
  lemma CheckedLoginReadsBack(tag: string, user: string, password: string)
    requires IsSafe(user) && IsSafe(password)
    ensures ParseLogin(c => !IsCrLf(c), tag, LoginLine(tag, user, password)) == Some((user, password))
    ensures ParseLogin(IsTextChar, tag, LoginLine(tag, user, password)) == Some((user, password))
            <==> forall c :: c in user + password ==> IsTextChar(c)
  {
    LoginParsesBack(c => !IsCrLf(c), tag, user, password);
    LoginParsesBack(IsTextChar, tag, user, password);
    assert forall c :: c in user + password <==> c in user || c in password;
  }

  /** A password that passes the check and is no quoted string of RFC 3501. */
  lemma EightBitPasswordIsNoQuotedString()
    ensures IsSafe("caf\U{e9}") && ParseLogin(IsTextChar, "A0001", LoginLine("A0001", "user", "caf\U{e9}")) == None
  {
    LoginParsesBack(IsTextChar, "A0001", "user", "caf\U{e9}");
    var c := '\U{e9}';
    assert "caf\U{e9}"[3] == c;
    assert !IsTextChar(c);
  }

  lemma {:induction false} EscapedIsSafe(value: string)
    requires IsSafe(value)
    ensures IsSafe(Escaped(value))
  {
    if value != "" {
      assert value[0] in value;
      assert forall c :: c in value[1..] ==> c in value;
      EscapedIsSafe(value[1..]);
    }
  }

  /** The line ends with its only CR and its only LF, so it is one command. */
  lemma LoginIsOneLine(tag: string, user: string, password: string, k: nat)
    requires IsSafe(tag) && IsSafe(user) && IsSafe(password)
    requires k < |LoginLine(tag, user, password)|
    ensures var line := LoginLine(tag, user, password);
            && (line[k] == '\r' <==> k == |line| - 2)
            && (line[k] == '\n' <==> k == |line| - 1)
  {
    EscapedIsSafe(user);
    EscapedIsSafe(password);
    var body := tag + " LOGIN " + Quoted(user) + " " + Quoted(password);
    assert LoginLine(tag, user, password) == body + "\r\n";
    forall c | c in body ensures !IsCrLf(c) {
      assert c in tag || c in " LOGIN " || c in Quoted(user) || c in " " || c in Quoted(password);
    }
    if k < |body| {
      assert body[k] in body;
    }
  }

  // ---------- Tags ----------

  function Digit(d: nat): char
    requires d < 10
  {
    ('0' as int + d) as char
  }

  function Decimal(n: nat): string {
    if n < 10 then [Digit(n)] else Decimal(n / 10) + [Digit(n % 10)]
  }

  function Zeros(n: nat): string {
    if n == 0 then "" else Zeros(n - 1) + "0"
  }

  function PaddedToFour(s: string): string {
    if |s| < 4 then Zeros(4 - |s|) + s else s
  }

  /** Decimal, padded with zeros to at least four digits. */
  function Padded(n: nat): string {
    PaddedToFour(Decimal(n))
  }

  function TagOf(n: nat): string {
    "A" + Padded(n)
  }

  predicate IsDigit(c: char) {
    '0' <= c <= '9'
  }

  function ValueOf(s: string): nat {
    if s == "" then 0
    else 10 * ValueOf(s[..|s| - 1]) + if IsDigit(s[|s| - 1]) then s[|s| - 1] as int - '0' as int else 0
  }

  lemma {:induction false} ZerosValue(n: nat)
    ensures ValueOf(Zeros(n)) == 0 && AllDigits(Zeros(n)) && |Zeros(n)| == n
  {
    if n > 0 {
      ZerosValue(n - 1);
    }
  }

  lemma {:induction false} DecimalValue(zeros: string, n: nat)
    requires ValueOf(zeros) == 0
    ensures ValueOf(zeros + Decimal(n)) == n && AllDigits(Decimal(n))
  {
    var s := zeros + Decimal(n);
    if n < 10 {
      assert s[..|s| - 1] == zeros;
    } else {
      DecimalValue(zeros, n / 10);
      assert s[..|s| - 1] == zeros + Decimal(n / 10);
    }
  }

  predicate AllDigits(s: string) {
    forall c :: c in s ==> IsDigit(c)
  }

  lemma DigitsConcat(a: string, b: string)
    requires AllDigits(a) && AllDigits(b)
    ensures AllDigits(a + b)
  {
  }

  lemma Padding(s: string) returns (zeros: string)
    ensures PaddedToFour(s) == zeros + s && ValueOf(zeros) == 0 && AllDigits(zeros)
  {
    zeros := if |s| < 4 then Zeros(4 - |s|) else "";
    if |s| < 4 {
      ZerosValue(4 - |s|);
    }
  }

  lemma PaddedValue(n: nat)
    ensures ValueOf(Padded(n)) == n && AllDigits(Padded(n))
  {
    var zeros := Padding(Decimal(n));
    DecimalValue(zeros, n);
    DigitsConcat(zeros, Decimal(n));
  }

  lemma TagValue(n: nat)
    ensures ValueOf(TagOf(n)[1..]) == n && IsSafe(TagOf(n)) && ' ' !in TagOf(n)
  {
    PaddedValue(n);
    assert TagOf(n)[1..] == Padded(n);
    forall c | c in TagOf(n) ensures c == 'A' || IsDigit(c) {
    }
  }

  class Tags {
    var next: nat

    constructor ()
      ensures next == 0
    {
      next := 0;
    }

    method Next() returns (tag: string)
      modifies this
      ensures next == old(next) + 1 && tag == TagOf(next)
    {
      next := next + 1;
      tag := "A" + Padded(next);
    }
  }

  /** The tags of a session are pairwise distinct, as section 2.2.1 of RFC 3501 asks, and hold no space or line end. */
  lemma TagsAreDistinct(m: nat, n: nat)
    requires m != n
    ensures TagOf(m) != TagOf(n)
    ensures IsSafe(TagOf(m)) && ' ' !in TagOf(m)
  {
    TagValue(m);
    TagValue(n);
  }

  // ---------- Responses ----------

  predicate IsTaggedCompletion(line: string, tag: string) {
    tag <= line && |line| > |tag| && line[|tag|] == ' '
  }

  /** Unicode White_Space, by which `split_whitespace` splits. */
  predicate IsWhitespace(c: char) {
    var n := c as int;
    || 9 <= n <= 13 || n == 0x20 || n == 0x85 || n == 0xA0 || n == 0x1680 || 0x2000 <= n <= 0x200A
    || n == 0x2028 || n == 0x2029 || n == 0x202F || n == 0x205F || n == 0x3000
  }

  function SkipWhitespace(s: string): string {
    if s != "" && IsWhitespace(s[0]) then SkipWhitespace(s[1..]) else s
  }

  function Word(s: string): string {
    if s == "" || IsWhitespace(s[0]) then "" else [s[0]] + Word(s[1..])
  }

  function Upper(c: char): char {
    if 'a' <= c <= 'z' then (c as int - 32) as char else c
  }

  function Uppercase(s: string): string {
    seq(|s|, i requires 0 <= i < |s| => Upper(s[i]))
  }

  predicate IsTaggedOk(line: string, tag: string) {
    IsTaggedCompletion(line, tag) && Uppercase(Word(SkipWhitespace(line[|tag| + 1..]))) == "OK"
  }

  predicate Contains(s: string, part: string) {
    exists k | 0 <= k <= |s| :: part <= s[k..]
  }

  predicate IsMailboxChange(line: string) {
    var upper := Uppercase(line);
    && "* " <= upper
    && (Contains(upper, " EXISTS") || Contains(upper, " EXPUNGE") || Contains(upper, " RECENT")
        || Contains(upper, " FETCH") || Contains(upper, " VANISHED"))
  }

  datatype IdleResponse = Completed | MailboxChange | Other | ServerClosed | CommandRejected

  function ClassifyIdleResponse(line: string, tag: string): IdleResponse {
    if "* BYE" <= Uppercase(line) then ServerClosed
    else if IsTaggedOk(line, tag) then Completed
    else if IsTaggedCompletion(line, tag) then CommandRejected
    else if IsMailboxChange(line) then MailboxChange
    else Other
  }

  function UpToSpace(s: string): string {
    if s == "" || s[0] == ' ' then "" else [s[0]] + UpToSpace(s[1..])
  }

  lemma {:induction false} CompletedTag(line: string, tag: string)
    requires IsTaggedCompletion(line, tag) && ' ' !in tag
    ensures UpToSpace(line) == tag
  {
    if tag != "" {
      assert line[0] == tag[0] && line[0] in tag;
      assert tag[1..] <= line[1..];
      CompletedTag(line[1..], tag[1..]);
    }
  }

  /** No response line completes two commands of a session. */
  lemma OneLineCompletesOneTag(line: string, m: nat, n: nat)
    requires IsTaggedCompletion(line, TagOf(m)) && IsTaggedCompletion(line, TagOf(n))
    ensures m == n
  {
    TagValue(m);
    TagValue(n);
    CompletedTag(line, TagOf(m));
    CompletedTag(line, TagOf(n));
  }
}
