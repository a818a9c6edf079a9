/** Where the session keys the summary writes land in the tag grids: `vote_data_processing`
    applied to the output of `parse_session`. */
module TagSessionKeys {
  import opened Wrappers
  import opened Strings
  import opened Summarize
  import opened TagStatistics

  lemma {:induction false} AsciiLettersAppend(a: string, b: string)
    ensures AsciiLetters(a + b) == AsciiLetters(a) + AsciiLetters(b)
  {
    if |a| == 0 {
      assert a + b == b;
    } else {
      assert (a + b)[1..] == a[1..] + b;
      AsciiLettersAppend(a[1..], b);
    }
  }

  lemma {:induction false} AsciiLettersOfDigits(m: string)
    requires AllDecimal(m)
    ensures AsciiLetters(m) == ""
  {
    if |m| > 0 {
      assert IsDecimal(m[0]);
      AsciiLettersOfDigits(m[1..]);
    }
  }

  lemma AsciiLettersOfSuffix(rg: Region)
    ensures AsciiLetters("_" + Suffix(rg)) == Suffix(rg)
  {
    var sfx := Suffix(rg);
    assert ("_" + sfx)[1..] == sfx;
    assert AsciiLetters(sfx[1..]) == [sfx[1]] by {
      assert sfx[1..][1..] == [];
    }
  }

  lemma FirstDigitRunOfRun(m: string, rest: string)
    requires m != "" && AllDecimal(m) && (|rest| == 0 || !IsDecimal(rest[0]))
    ensures FirstDigitRun(m + rest) == Some(m)
  {
    LeadingDigitsOfRun(m, rest);
    assert (m + rest)[0] == m[0];
  }

  lemma SessionKeyLetters(m: string, rg: Region)
    requires AllDecimal(m)
    ensures AsciiLetters(m + "_" + Suffix(rg)) == Suffix(rg)
  {
    assert m + "_" + Suffix(rg) == m + ("_" + Suffix(rg));
    AsciiLettersAppend(m, "_" + Suffix(rg));
    AsciiLettersOfDigits(m);
    AsciiLettersOfSuffix(rg);
  }

  lemma VoteDataProcessingOfRun(key: string, m: string, rg: Region)
    requires m != "" && AllDecimal(m) && key == m + ("_" + Suffix(rg))
    ensures VoteDataProcessing(key) == Some((DigitsValue(m) - 1, if rg == Cn then 0 else 1))
  {
    FirstDigitRunOfRun(m, "_" + Suffix(rg));
    SessionKeyLetters(m, rg);
    assert m + "_" + Suffix(rg) == m + ("_" + Suffix(rg));
    assert Suffix(rg) == "cn" <==> rg == Cn;
  }

  lemma ParseSessionKey(name: string, sfx: string)
    requires LeadingDigits(name) != ""
    ensures ParseSession(name, sfx) == LeadingDigits(name) + ("_" + sfx)
  {
    var m := LeadingDigits(name);
    assert ParseSession(name, sfx) == m + "_" + sfx;
    SeqAssoc(m, "_", sfx);
  }

  lemma SeqAssoc(a: string, b: string, c: string)
    ensures a + b + c == a + (b + c)
  {
  }

  lemma VoteDataProcessingOfLeading(name: string, rg: Region, key: string)
    requires LeadingDigits(name) != "" && key == LeadingDigits(name) + ("_" + Suffix(rg))
    ensures VoteDataProcessing(key) == Some((DigitsValue(LeadingDigits(name)) - 1, if rg == Cn then 0 else 1))
  {
    VoteDataProcessingOfRun(key, LeadingDigits(name), rg);
  }

  /** The keys the summary writes (`parse_session` of a sheet name with a leading number k)
      are processed into (k - 1, region). */
  lemma VoteDataProcessingOfSession(name: string, rg: Region)
    requires LeadingDigits(name) != ""
    ensures VoteDataProcessing(ParseSession(name, Suffix(rg)))
         == Some((DigitsValue(LeadingDigits(name)) - 1, if rg == Cn then 0 else 1))
  {
    ParseSessionKey(name, Suffix(rg));
    VoteDataProcessingOfLeading(name, rg, ParseSession(name, Suffix(rg)));
  }

  /** The example of the script's comment: '3_jp' is session index 2 of region 1. */
  lemma VoteDataProcessingExample()
    ensures VoteDataProcessing("3_jp") == Some((2, 1))
  {
    assert LeadingDigits("3") == "3";
    VoteDataProcessingOfSession("3", Jp);
    assert ParseSession("3", "jp") == "3_jp";
  }

  /** A counted session entry of session k (1 <= k <= 20) adds `v / total_votes` at column
      k - 1 of its region's row. */
  lemma SessionStepOfSession(d: Data, boundary: int, name: string, rg: Region, st: Stats)
    requires LeadingDigits(name) != "" && 1 <= DigitsValue(LeadingDigits(name)) <= Width
    requires RankOf(st).Some? && RankOf(st).value > boundary && VotesOf(st).Some?
    requires SessionTotal(d, ParseSession(name, Suffix(rg))).Some?
    requires SessionTotal(d, ParseSession(name, Suffix(rg))).value != 0
    ensures SessionStep(d, boundary, ParseSession(name, Suffix(rg)), st)
         == Add(if rg == Cn then 0 else 1, DigitsValue(LeadingDigits(name)) - 1,
                VotesOf(st).value / SessionTotal(d, ParseSession(name, Suffix(rg))).value as real)
  {
    VoteDataProcessingOfSession(name, rg);
  }
}
