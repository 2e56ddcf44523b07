/** The response lines of RFC 3501 that matter to an idling session, in any letter case, and what they are taken for. */
module ImapGrammar {
  import opened ImapText

  /** The same character, or the same ASCII letter in the other case. */
  predicate SameLetter(a: char, b: char) {
    || a == b
    || ('a' <= a <= 'z' && a as int == b as int + 32)
    || ('A' <= a <= 'Z' && b as int == a as int + 32)
  }

  predicate InAnyCase(s: string, text: string) {
    |s| == |text| && forall k :: 0 <= k < |s| ==> SameLetter(s[k], text[k])
  }

  predicate Starts(line: string, text: string) {
    |text| <= |line| && InAnyCase(line[..|text|], text)
  }

  /** message-data and mailbox-data of section 9 of RFC 3501 that tell of a change to message number `n`. */
  predicate TellsOf(line: string, n: nat) {
    || Starts(line, "* " + Decimal(n) + " EXISTS")
    || Starts(line, "* " + Decimal(n) + " RECENT")
    || Starts(line, "* " + Decimal(n) + " EXPUNGE")
    || Starts(line, "* " + Decimal(n) + " FETCH")
  }

  /** The server tells of a change; VANISHED is that of section 3.2.10 of RFC 7162. */
  ghost predicate Announces(line: string) {
    Starts(line, "* VANISHED") || exists n: nat :: TellsOf(line, n)
  }

  /** One of the five words stands somewhere in the line. */
  predicate NamesChange(line: string, k: nat)
    requires k <= |line|
  {
    || Starts(line[k..], " EXISTS") || Starts(line[k..], " EXPUNGE") || Starts(line[k..], " RECENT")
    || Starts(line[k..], " FETCH") || Starts(line[k..], " VANISHED")
  }

  /** response-tagged: the tag, a status in any case, and the end of the line or a space. */
  predicate Answers(line: string, tag: string, status: string) {
    && tag + " " <= line
    && Starts(line[|tag| + 1..], status)
    && (|line| == |tag| + 1 + |status| || line[|tag| + 1 + |status|] == ' ')
  }

  // ---------- Letter case ----------

  lemma SameLetterUpper(a: char, b: char)
    requires Upper(b) == b
    ensures SameLetter(a, b) <==> Upper(a) == b
  {
  }

  lemma StartsUpper(line: string, text: string)
    requires Uppercase(text) == text
    ensures Starts(line, text) <==> text <= Uppercase(line)
  {
    forall k | 0 <= k < |text| && |text| <= |line| ensures SameLetter(line[k], text[k]) <==> Uppercase(line)[k] == text[k] {
      assert Uppercase(text)[k] == text[k];
      SameLetterUpper(line[k], text[k]);
    }
    if text <= Uppercase(line) {
      forall k | 0 <= k < |text| ensures SameLetter(line[..|text|][k], text[k]) {
        assert Uppercase(line)[k] == text[k];
      }
    }
    if Starts(line, text) {
      forall k | 0 <= k < |text| ensures Uppercase(line)[k] == text[k] {
        assert SameLetter(line[..|text|][k], text[k]);
      }
    }
  }

  lemma UppercaseDrop(line: string, k: nat)
    requires k <= |line|
    ensures Uppercase(line)[k..] == Uppercase(line[k..])
  {
  }

  /** The word stands somewhere in the line. */
  predicate Somewhere(line: string, word: string) {
    exists k | 0 <= k <= |line| :: Starts(line[k..], word)
  }

  /** A word in capitals is in the upper-cased line exactly when it stands somewhere in the line in some letter case. */
  lemma ContainsInAnyCase(line: string, word: string)
    requires Uppercase(word) == word
    ensures Contains(Uppercase(line), word) <==> Somewhere(line, word)
  {
    forall k | 0 <= k <= |line| ensures word <= Uppercase(line)[k..] <==> Starts(line[k..], word) {
      UppercaseDrop(line, k);
      StartsUpper(line[k..], word);
    }
  }

  // ---------- What the lines are taken for ----------

  predicate NamesAny(line: string) {
    || Somewhere(line, " EXISTS") || Somewhere(line, " EXPUNGE") || Somewhere(line, " RECENT")
    || Somewhere(line, " FETCH") || Somewhere(line, " VANISHED")
  }

  lemma NamedSomewhere(line: string, word: string)
    requires word == " EXISTS" || word == " EXPUNGE" || word == " RECENT" || word == " FETCH" || word == " VANISHED"
    requires Somewhere(line, word)
    ensures exists k | 0 <= k <= |line| :: NamesChange(line, k)
  {
    var k :| 0 <= k <= |line| && Starts(line[k..], word);
    assert NamesChange(line, k);
  }

  lemma AnyIsNamed(line: string)
    ensures NamesAny(line) <==> exists k | 0 <= k <= |line| :: NamesChange(line, k)
  {
    if Somewhere(line, " EXISTS") {
      NamedSomewhere(line, " EXISTS");
    } else if Somewhere(line, " EXPUNGE") {
      NamedSomewhere(line, " EXPUNGE");
    } else if Somewhere(line, " RECENT") {
      NamedSomewhere(line, " RECENT");
    } else if Somewhere(line, " FETCH") {
      NamedSomewhere(line, " FETCH");
    } else if Somewhere(line, " VANISHED") {
      NamedSomewhere(line, " VANISHED");
    }
    if k :| 0 <= k <= |line| && NamesChange(line, k) {
      assert NamesAny(line);
    }
  }

  lemma ChangeIsAny(line: string)
    ensures IsMailboxChange(line) <==> "* " <= Uppercase(line) && NamesAny(line)
  {
    ContainsInAnyCase(line, " EXISTS");
    ContainsInAnyCase(line, " EXPUNGE");
    ContainsInAnyCase(line, " RECENT");
    ContainsInAnyCase(line, " FETCH");
    ContainsInAnyCase(line, " VANISHED");
  }

  lemma ChangeIsNamed(line: string)
    ensures IsMailboxChange(line) <==> "* " <= line && exists k | 0 <= k <= |line| :: NamesChange(line, k)
  {
    ChangeIsAny(line);
    AnyIsNamed(line);
    StartsUpper(line, "* ");
    assert Starts(line, "* ") <==> "* " <= line;
  }

  /** A line that starts with the one text goes on with the other after its first part. */
  lemma StartsLater(line: string, first: string, second: string)
    requires Starts(line, first + second)
    ensures Starts(line, first) && Starts(line[|first|..], second)
  {
    var text := first + second;
    forall k | 0 <= k < |first| ensures SameLetter(line[..|first|][k], first[k]) {
      assert SameLetter(line[..|text|][k], text[k]);
    }
    forall k | 0 <= k < |second| ensures SameLetter(line[|first|..][..|second|][k], second[k]) {
      assert SameLetter(line[..|text|][|first| + k], text[|first| + k]);
    }
  }

  lemma ByeLetter(line: string)
    ensures Starts(line, "* BYE") ==> SameLetter(line[2], 'B')
  {
    if Starts(line, "* BYE") {
      assert SameLetter(line[..5][2], "* BYE"[2]);
    }
  }

  lemma TellingIsChange(line: string, n: nat, word: string)
    requires word == " EXISTS" || word == " RECENT" || word == " EXPUNGE" || word == " FETCH"
    requires Starts(line, "* " + Decimal(n) + word)
    ensures IsMailboxChange(line) && !Starts(line, "* BYE")
  {
    StartsLater(line, "* " + Decimal(n), word);
    StartsLater(line, "* ", Decimal(n));
    DecimalValue("", n);
    assert IsDigit(Decimal(n)[0]) by {
      assert Decimal(n)[0] in Decimal(n);
    }
    var rest := line[2..];
    assert SameLetter(rest[..|Decimal(n)|][0], Decimal(n)[0]);
    assert line[2] == Decimal(n)[0];
    ByeLetter(line);
    ChangeIsNamed(line);
    assert NamesChange(line, |"* " + Decimal(n)|);
    assert line[..2][0] == '*' && line[..2][1] == ' ';
  }

  lemma VanishedIsChange(line: string)
    requires Starts(line, "* VANISHED")
    ensures IsMailboxChange(line) && !Starts(line, "* BYE")
  {
    StartsLater(line, "*", " VANISHED");
    StartsLater(line, "* ", "VANISHED");
    ChangeIsNamed(line);
    assert NamesChange(line, 1);
    assert SameLetter(line[..2][0], '*') && SameLetter(line[..2][1], ' ');
    assert SameLetter(line[2..][..8][0], 'V');
    ByeLetter(line);
  }

  lemma NumberedIsChange(line: string, n: nat)
    requires TellsOf(line, n)
    ensures IsMailboxChange(line) && !Starts(line, "* BYE")
  {
    if Starts(line, "* " + Decimal(n) + " EXISTS") {
      TellingIsChange(line, n, " EXISTS");
    } else if Starts(line, "* " + Decimal(n) + " RECENT") {
      TellingIsChange(line, n, " RECENT");
    } else if Starts(line, "* " + Decimal(n) + " EXPUNGE") {
      TellingIsChange(line, n, " EXPUNGE");
    } else {
      TellingIsChange(line, n, " FETCH");
    }
  }

  /** A change that is no BYE is no tagged line either. */
  lemma ChangeIsClassified(line: string, t: nat)
    requires IsMailboxChange(line) && !Starts(line, "* BYE")
    ensures ClassifyIdleResponse(line, TagOf(t)) == MailboxChange
  {
    ChangeIsNamed(line);
    StartsUpper(line, "* BYE");
    assert line[0] == '*' && TagOf(t)[0] == 'A';
  }

  /** While a session idles, every line by which the server announces a change is taken for one, in any letter case. */
  lemma AnnouncedIsChange(line: string, t: nat)
    requires Announces(line)
    ensures ClassifyIdleResponse(line, TagOf(t)) == MailboxChange
  {
    if Starts(line, "* VANISHED") {
      VanishedIsChange(line);
    } else {
      var n: nat :| TellsOf(line, n);
      NumberedIsChange(line, n);
    }
    ChangeIsClassified(line, t);
  }

  lemma {:induction false} FirstWord(s: string, n: nat)
    requires n <= |s| && forall k :: 0 <= k < n ==> !IsWhitespace(s[k])
    requires n == |s| || IsWhitespace(s[n])
    ensures Word(s) == s[..n]
  {
    if n > 0 {
      FirstWord(s[1..], n - 1);
      assert s[..n] == [s[0]] + s[1..][..n - 1];
    }
  }

  lemma LettersAreNoWhitespace(a: char, b: char)
    requires SameLetter(a, b) && 'A' <= b <= 'Z'
    ensures !IsWhitespace(a)
  {
  }

  /** The first word after the tag is the status. */
  lemma StatusIsWord(rest: string, status: string)
    requires status != "" && Uppercase(status) == status && forall k :: 0 <= k < |status| ==> 'A' <= status[k] <= 'Z'
    requires Starts(rest, status) && (|rest| == |status| || rest[|status|] == ' ')
    ensures Uppercase(Word(SkipWhitespace(rest))) == status
  {
    var n := |status|;
    forall k | 0 <= k < n ensures !IsWhitespace(rest[k]) {
      LettersAreNoWhitespace(rest[..n][k], status[k]);
    }
    FirstWord(rest, n);
    StartsUpper(rest, status);
    assert Uppercase(rest[..n]) == Uppercase(rest)[..n];
  }

  lemma AnswerIsCompletion(line: string, t: nat, status: string)
    requires status == "OK" || status == "NO" || status == "BAD"
    requires Answers(line, TagOf(t), status)
    ensures ClassifyIdleResponse(line, TagOf(t)) == if status == "OK" then Completed else CommandRejected
  {
    var tag := TagOf(t);
    assert line[|tag|] == (tag + " ")[|tag|];
    StatusIsWord(line[|tag| + 1..], status);
    assert line[0] == (tag + " ")[0] == 'A';
    assert Uppercase(line)[0] == 'A';
  }

  lemma ByeIsClosing(line: string, t: nat)
    requires Starts(line, "* BYE")
    ensures ClassifyIdleResponse(line, TagOf(t)) == ServerClosed
  {
    StartsUpper(line, "* BYE");
  }

  /** And nothing else is a change: only an untagged line that names one. */
  lemma ChangeIsAnnounced(line: string, t: nat)
    requires ClassifyIdleResponse(line, TagOf(t)) == MailboxChange
    ensures "* " <= line && !Starts(line, "* BYE") && exists k | 0 <= k <= |line| :: NamesChange(line, k)
  {
    ChangeIsNamed(line);
    StartsUpper(line, "* BYE");
  }

  /** A line that is neither BYE nor tagged nor names a change is passed over. */
  lemma OthersArePassedOver(line: string, t: nat)
    requires !Starts(line, "* BYE") && !(TagOf(t) + " " <= line)
    requires !("* " <= line) || forall k :: 0 <= k <= |line| ==> !NamesChange(line, k)
    ensures ClassifyIdleResponse(line, TagOf(t)) == Other
  {
    ChangeIsNamed(line);
    StartsUpper(line, "* BYE");
    assert IsTaggedCompletion(line, TagOf(t)) ==> TagOf(t) + " " <= line;
  }

  /** resp-text of a tagged line that starts with OK: after the tag and white space of any kind. */
  predicate SaysOkAt(line: string, tag: string, at: nat) {
    && |tag| + 1 <= at <= |line|
    && (forall k :: |tag| + 1 <= k < at ==> IsWhitespace(line[k]))
    && Starts(line[at..], "OK")
    && (at + 2 == |line| || IsWhitespace(line[at + 2]))
  }

  lemma {:induction false} SkipsTo(s: string) returns (n: nat)
    ensures n <= |s| && SkipWhitespace(s) == s[n..]
    ensures (forall k :: 0 <= k < n ==> IsWhitespace(s[k])) && (n < |s| ==> !IsWhitespace(s[n]))
  {
    n := 0;
    if s != "" && IsWhitespace(s[0]) {
      var m := SkipsTo(s[1..]);
      n := m + 1;
      assert s[n..] == s[1..][m..];
    }
  }

  lemma {:induction false} WordLength(s: string) returns (n: nat)
    ensures n <= |s| && Word(s) == s[..n] && (n < |s| ==> IsWhitespace(s[n])) && forall k :: 0 <= k < n ==> !IsWhitespace(s[k])
  {
    n := 0;
    if s != "" && !IsWhitespace(s[0]) {
      var m := WordLength(s[1..]);
      n := m + 1;
      assert s[..n] == [s[0]] + s[1..][..m];
    }
  }

  lemma OkIsSaid(line: string, tag: string)
    requires IsTaggedCompletion(line, tag)
    ensures IsTaggedOk(line, tag) <==> exists at :: SaysOkAt(line, tag, at)
  {
    var rest := line[|tag| + 1..];
    var n := SkipsTo(rest);
    var at := |tag| + 1 + n;
    assert rest[n..] == line[at..];
    assert forall k :: |tag| + 1 <= k < at ==> line[k] == rest[k - |tag| - 1];
    var m := WordLength(rest[n..]);
    if IsTaggedOk(line, tag) {
      assert m == 2 && Uppercase(line[at..][..2]) == "OK";
      assert Uppercase(line[at..])[..2] == Uppercase(line[at..][..2]);
      StartsUpper(line[at..], "OK");
      assert SaysOkAt(line, tag, at);
    }
    if other: nat :| SaysOkAt(line, tag, other) {
      OkIsFirst(line, tag, at, other);
      FirstWord(line[at..], 2);
      StartsUpper(line[at..], "OK");
      assert Uppercase(line[at..])[..2] == Uppercase(line[at..][..2]);
    }
  }

  /** The first character that is no white space can only be that of the status. */
  lemma OkIsFirst(line: string, tag: string, at: nat, other: nat)
    requires |tag| + 1 <= at <= |line| && forall k :: |tag| + 1 <= k < at ==> IsWhitespace(line[k])
    requires at < |line| ==> !IsWhitespace(line[at])
    requires SaysOkAt(line, tag, other)
    ensures at == other && !IsWhitespace(line[at]) && !IsWhitespace(line[at + 1])
  {
    var head := line[other..][..2];
    assert SameLetter(head[0], "OK"[0]) && SameLetter(head[1], "OK"[1]);
    LettersAreNoWhitespace(line[other], 'O');
    LettersAreNoWhitespace(line[other + 1], 'K');
  }

  /** What any line is taken for while a session idles under tag `n`, exactly: BYE in any letter case closes; the answer is a line
      that begins with the tag, good if OK in any letter case is its first word; an untagged line with one of the five words is a
      change; and no line is two of these. */
  lemma ClassificationIsExclusive(line: string, n: nat)
    ensures var response, tag := ClassifyIdleResponse(line, TagOf(n)), TagOf(n);
            && (response.ServerClosed? <==> Starts(line, "* BYE"))
            && (response.Completed? <==> tag + " " <= line && exists at :: SaysOkAt(line, tag, at))
            && (response.CommandRejected? <==> tag + " " <= line && !exists at :: SaysOkAt(line, tag, at))
            && (response.MailboxChange? <==>
                  "* " <= line && !Starts(line, "* BYE") && exists k | 0 <= k <= |line| :: NamesChange(line, k))
  {
    var tag := TagOf(n);
    ChangeIsNamed(line);
    StartsUpper(line, "* BYE");
    if tag + " " <= line {
      assert line[|tag|] == (tag + " ")[|tag|] && line[0] == (tag + " ")[0] == 'A';
      assert Uppercase(line)[0] == 'A';
      OkIsSaid(line, tag);
    } else {
      assert !IsTaggedCompletion(line, tag) by {
        assert IsTaggedCompletion(line, tag) ==> tag + " " <= line;
      }
    }
  }
}
