/** The phone-number validator of users/models.py: the regular expression
    `^\+?[1-9]\d{7,14}$`, run by Django's RegexValidator with `search`.

    The pattern is written out as data (a sequence of repeated atoms) and
    run by a small backtracking matcher, so that the lemmas below compare
    what the expression accepts with a direct statement of the E.164 subset
    it is meant to describe. */
module PhoneValidator {

  /** One character test of a regular expression. */
  datatype Atom =
    | Char(c: char)              // a literal character, such as `\+`
    | Span(lo: char, hi: char)   // a character class range, such as `[1-9]`
    | Digit                      // `\d`

  /** An atom repeated between `min` and `max` times: `?` is {0,1}, an atom
      with no quantifier is {1,1}, `{7,14}` is {7,14}. */
  datatype Piece = Piece(atom: Atom, min: nat, max: nat)

  /** What the anchor at the end of the pattern accepts as the rest of the text. */
  datatype End =
    | EndOrFinalNewline   // Python's `$` without MULTILINE: the end, or just before a final '\n'
    | EndOfText           // Python's `\Z`: the end only

  predicate IsAsciiDigit(c: char)
  {
    '0' <= c <= '9'
  }

  predicate AllDigits(s: string)
  {
    forall i :: 0 <= i < |s| ==> IsAsciiDigit(s[i])
  }

  predicate AtomMatches(a: Atom, c: char)
  {
    match a
    case Char(x) => c == x
    case Span(lo, hi) => lo <= c <= hi
    case Digit => IsAsciiDigit(c)
  }

  predicate AtEnd(rest: string, end: End)
  {
    rest == [] || (end == EndOrFinalNewline && rest == "\n")
  }

  /** `pieces`, anchored at the start of `s` (the pattern's `^`), match a
      prefix of `s` that the end anchor accepts the rest of. */
  predicate Matches(pieces: seq<Piece>, s: string, end: End)
    decreases |pieces|, |s|, 1
  {
    if pieces == [] then AtEnd(s, end)
    else MatchesRepeat(pieces[0], 0, pieces[1..], s, end)
  }

  /** Having matched `p` already `n` times, `s` matches further repetitions
      of `p` and then `rest`. Each repetition count allowed is tried. */
  predicate MatchesRepeat(p: Piece, n: nat, rest: seq<Piece>, s: string, end: End)
    decreases |rest| + 1, |s|, 0
  {
    (p.min <= n && Matches(rest, s, end))
    || (n < p.max && |s| > 0 && AtomMatches(p.atom, s[0])
        && MatchesRepeat(p, n + 1, rest, s[1..], end))
  }

  const PlusPiece := Piece(Char('+'), 0, 1)        // `\+?`
  const LeadPiece := Piece(Span('1', '9'), 1, 1)   // `[1-9]`
  const RunPiece := Piece(Digit, 7, 14)            // `\d{7,14}`

  /** `^\+?[1-9]\d{7,14}` */
  const PhonePattern: seq<Piece> := [PlusPiece, LeadPiece, RunPiece]

  /** The validator as written: the pattern closed by Python's `$`. */
  predicate PhoneValidatorAsWritten(s: string)
  {
    Matches(PhonePattern, s, EndOrFinalNewline)
  }

  /** The validator as intended: the pattern closed by `\Z`, so that nothing
      may follow the digits. */
  predicate IsValidPhone(s: string)
  {
    Matches(PhonePattern, s, EndOfText)
  }

  /** The text after an optional leading `+`. */
  function AfterPlus(s: string): (r: string)
  {
    if |s| > 0 && s[0] == '+' then s[1..] else s
  }

  /** A digit 1-9 followed by 7 to 14 more digits: 8 to 15 digits in all. */
  predicate IsDigitRun(t: string)
  {
    8 <= |t| <= 15 && '1' <= t[0] <= '9' && AllDigits(t[1..])
  }

  /** The E.164 subset the validator describes: an optional `+`, then a
      digit 1-9, then 7 to 14 more digits, and nothing before or after. */
  predicate IsE164(s: string)
  {
    IsDigitRun(AfterPlus(s))
  }

  /** What `\d{lo,hi}` followed by the end anchor accepts, having already
      matched `n` digits: the rest of the text is all digits, or (under `$`)
      all digits and then one final '\n', with a digit count in range. */
  lemma {:induction false} DigitRunMatches(lo: nat, hi: nat, n: nat, s: string, end: End)
    requires n <= hi
    ensures MatchesRepeat(Piece(Digit, lo, hi), n, [], s, end) <==>
      (lo <= n + |s| <= hi && AllDigits(s))
      || (end == EndOrFinalNewline && |s| > 0 && s[|s| - 1] == '\n'
          && lo <= n + |s| - 1 <= hi && AllDigits(s[..|s| - 1]))
    decreases |s|
  {
    var p := Piece(Digit, lo, hi);
    if s == [] {
    } else if AtEnd(s, end) {
      assert s == "\n" && !IsAsciiDigit(s[0]);
      assert !AllDigits(s);
      assert s[..|s| - 1] == [];
    } else {
      var t := s[1..];
      if n < hi {
        DigitRunMatches(lo, hi, n + 1, t, end);
      }
      assert AllDigits(s) <==> IsAsciiDigit(s[0]) && AllDigits(t) by {
        if IsAsciiDigit(s[0]) && AllDigits(t) {
          forall i | 0 <= i < |s| ensures IsAsciiDigit(s[i]) {
            if i > 0 { assert s[i] == t[i - 1]; }
          }
        }
        if AllDigits(s) {
          forall i | 0 <= i < |t| ensures IsAsciiDigit(t[i]) {
            assert t[i] == s[i + 1];
          }
        }
      }
      if |s| > 1 {
        var u := s[..|s| - 1];
        assert t[|t| - 1] == s[|s| - 1];
        assert t[..|t| - 1] == u[1..];
        assert AllDigits(u) <==> IsAsciiDigit(s[0]) && AllDigits(t[..|t| - 1]) by {
          var v := t[..|t| - 1];
          if IsAsciiDigit(s[0]) && AllDigits(v) {
            forall i | 0 <= i < |u| ensures IsAsciiDigit(u[i]) {
              if i > 0 { assert u[i] == v[i - 1]; } else { assert u[0] == s[0]; }
            }
          }
          if AllDigits(u) {
            assert u[0] == s[0];
            forall i | 0 <= i < |v| ensures IsAsciiDigit(v[i]) {
              assert v[i] == u[i + 1];
            }
          }
        }
      } else {
        assert s[|s| - 1] == s[0];
        assert end == EndOrFinalNewline ==> s[0] != '\n';
      }
    }
  }

  /** `[1-9]\d{7,14}` then the end anchor: a digit 1-9 first, then the digit run. */
  predicate LeadThenRun(t: string, end: End)
  {
    |t| > 0 && '1' <= t[0] <= '9' && MatchesRepeat(RunPiece, 0, [], t[1..], end)
  }

  /** Running the phone pattern comes down to: the lead digit and run at the
      start, or a `+` and then the lead digit and run. */
  lemma PhonePatternUnfolds(s: string, end: End)
    ensures Matches(PhonePattern, s, end) <==>
      LeadThenRun(s, end) || (|s| > 0 && s[0] == '+' && LeadThenRun(s[1..], end))
  {
    forall t: string
      ensures Matches([LeadPiece, RunPiece], t, end) <==> LeadThenRun(t, end)
    {
      assert [LeadPiece, RunPiece][1..] == [RunPiece];
      assert [RunPiece][1..] == [];
      if |t| > 0 {
        assert MatchesRepeat(LeadPiece, 1, [RunPiece], t[1..], end)
          <==> Matches([RunPiece], t[1..], end);
      }
    }
    assert PhonePattern[1..] == [LeadPiece, RunPiece];
    if |s| > 0 {
      assert MatchesRepeat(PlusPiece, 1, [LeadPiece, RunPiece], s[1..], end)
        <==> Matches([LeadPiece, RunPiece], s[1..], end);
    }
  }

  /** The lead digit and run, with the end anchor `\Z`, accept exactly a digit run. */
  lemma LeadThenRunAtEndOfText(t: string)
    ensures LeadThenRun(t, EndOfText) <==> IsDigitRun(t)
  {
    if |t| > 0 {
      DigitRunMatches(7, 14, 0, t[1..], EndOfText);
    }
  }

  /** The corrected validator accepts exactly the E.164 subset: an optional
      `+`, a digit 1-9, then 7 to 14 more digits, nothing before or after. */
  lemma ValidPhoneIsE164(s: string)
    ensures IsValidPhone(s) <==> IsE164(s)
  {
    PhonePatternUnfolds(s, EndOfText);
    LeadThenRunAtEndOfText(s);
    if |s| > 0 {
      LeadThenRunAtEndOfText(s[1..]);
    }
  }

  /** Every phone the corrected validator accepts fits the field's
      `max_length` of 16 and carries 8 to 15 digits. */
  lemma ValidPhoneLength(s: string)
    ensures IsValidPhone(s) ==> 8 <= |s| <= 16 && 8 <= |AfterPlus(s)| <= 15
  {
    ValidPhoneIsE164(s);
  }

  /** The lead digit and run, with Python's `$`, accept a digit run and also
      a digit run followed by one '\n'. */
  lemma LeadThenRunAtDollar(t: string)
    ensures LeadThenRun(t, EndOrFinalNewline) <==>
      IsDigitRun(t) || (|t| > 0 && t[|t| - 1] == '\n' && IsDigitRun(t[..|t| - 1]))
  {
    if |t| > 0 {
      var u := t[1..];
      DigitRunMatches(7, 14, 0, u, EndOrFinalNewline);
      if |t| > 1 {
        var w := t[..|t| - 1];
        assert w[1..] == u[..|u| - 1];
        assert w[0] == t[0];
        assert u[|u| - 1] == t[|t| - 1];
      }
    }
  }

  /** The validator as written accepts exactly the E.164 subset and, in
      addition, every such phone followed by a single '\n'. */
  lemma AsWrittenAcceptsFinalNewline(s: string)
    ensures PhoneValidatorAsWritten(s) <==>
      IsE164(s) || (|s| > 0 && s[|s| - 1] == '\n' && IsE164(s[..|s| - 1]))
  {
    PhonePatternUnfolds(s, EndOrFinalNewline);
    LeadThenRunAtDollar(s);
    if |s| > 0 {
      LeadThenRunAtDollar(s[1..]);
      var w := s[..|s| - 1];
      if s[0] == '+' && |s| > 1 {
        assert w[0] == '+' && w[1..] == s[1..][..|s| - 2];
      } else if s[0] != '+' && |s| > 1 {
        assert w[0] == s[0];
      }
    }
  }

  /** Every valid phone followed by '\n' passes the validator as written,
      though it is not a valid phone. */
  lemma NewlineAfterValidPhone(s: string)
    requires IsE164(s)
    ensures PhoneValidatorAsWritten(s + "\n") && !IsValidPhone(s + "\n")
  {
    var t := s + "\n";
    AsWrittenAcceptsFinalNewline(t);
    assert t[..|s|] == s;
    ValidPhoneIsE164(t);
    var u := AfterPlus(t);
    assert u == AfterPlus(s) + "\n";
    assert u[1..][|u| - 2] == '\n';
  }

  /** Concrete inputs: a phone with a trailing newline, and one of 17
      characters (longer than `max_length`), pass the validator as written;
      the first is refused by the corrected one. */
  lemma AsWrittenNewlineWitness()
    ensures PhoneValidatorAsWritten("+15551234567\n") && !IsValidPhone("+15551234567\n")
    ensures PhoneValidatorAsWritten("+123456789012345\n") && |"+123456789012345\n"| == 17
  {
    var a := "+15551234567";
    var b := "+123456789012345";
    assert IsE164(a) by { assert AfterPlus(a)[1..] == "5551234567"; }
    assert IsE164(b) by { assert AfterPlus(b)[1..] == "23456789012345"; }
    NewlineAfterValidPhone(a);
    NewlineAfterValidPhone(b);
    assert a + "\n" == "+15551234567\n";
    assert b + "\n" == "+123456789012345\n";
  }

  /** The corrected validator on typical valid and invalid inputs. */
  lemma PhoneExamples()
    ensures IsValidPhone("+15551234567") && IsValidPhone("15551234567")
    ensures !IsValidPhone("12345") && !IsValidPhone("+0123456789") && !IsValidPhone("abc123")
  {
    ValidPhoneIsE164("+15551234567");
    ValidPhoneIsE164("15551234567");
    ValidPhoneIsE164("12345");
    ValidPhoneIsE164("+0123456789");
    ValidPhoneIsE164("abc123");
    assert AfterPlus("+15551234567")[1..] == "5551234567";
    assert AfterPlus("15551234567")[1..] == "5551234567";
  }
}
