/** Reading lines of the Keithley 2001 multimeter, e.g.
    "-38.3204E-03NVDC,+73597.273513SECS,+39170RDNG#,00EXTCHAN":
    extracting the numeric token and the shape of a channel scan.
    Python's float() is not modelled: it is passed in as `toFloat`, which
    answers None where float() raises. */
module Keithley2001 {
  import opened Wrappers
  import Decimal

  type FloatParser = string -> Option<real>

  /** line.split(",")[0]: the text before the first comma. */
  function FirstField(s: string): (r: string)
    ensures ',' !in r
    ensures |r| <= |s| && r == s[..|r|]
    ensures |r| < |s| ==> s[|r|] == ','
  {
    if |s| == 0 || s[0] == ',' then "" else [s[0]] + FirstField(s[1..])
  }

  /** s.replace(pat, ""): one left-to-right pass that drops every
      non-overlapping occurrence of pat. */
  function RemoveAll(s: string, pat: string): (r: string)
    requires |pat| > 0
    ensures |r| <= |s|
    ensures forall c :: c in r ==> c in s
    ensures pat[0] !in s ==> r == s
    decreases |s|
  {
    if |s| < |pat| then s
    else if s[..|pat|] == pat then RemoveAll(s[|pat|..], pat)
    else [s[0]] + RemoveAll(s[1..], pat)
  }

  /** The token `parse_float` converts: the first field with every "NVDC"
      and then every "NVAC" removed. */
  function Token(line: string): (t: string)
    ensures ',' !in t
    ensures |t| <= |line|
  {
    RemoveAll(RemoveAll(FirstField(line), "NVDC"), "NVAC")
  }

  function ParseFloat(line: string, toFloat: FloatParser): (v: Option<real>)
    ensures v == toFloat(Token(line))
    ensures 'N' !in FirstField(line) ==> v == toFloat(FirstField(line))
  {
    toFloat(Token(line))
  }

  /** `query_voltage` only removes the "NVAC" suffix. */
  function QueryVoltageToken(line: string): (t: string)
    ensures ',' !in t
  {
    RemoveAll(FirstField(line), "NVAC")
  }

  /** Without a unit suffix in the first field, `query_voltage` and
      `parse_float` convert the same text. */
  function QueryVoltage(line: string, toFloat: FloatParser): (v: Option<real>)
    ensures 'N' !in FirstField(line) ==> v == ParseFloat(line, toFloat)
  {
    toFloat(QueryVoltageToken(line))
  }

  /** Shared by `query_voltage_compliance` and `query_current_source_amplitude`:
      an empty reply reads as 0.0, any other is converted like `parse_float`. */
  function ReplyValue(reply: string, toFloat: FloatParser): (v: Option<real>)
    ensures reply == "" ==> v == Some(0.0)
    ensures reply != "" ==> v == ParseFloat(reply, toFloat)
  {
    if reply == "" then Some(0.0) else ParseFloat(reply, toFloat)
  }

  function QueryVoltageCompliance(reply: string, toFloat: FloatParser): (v: Option<real>)
    ensures reply == "" ==> v == Some(0.0)
    ensures reply != "" ==> v == toFloat(Token(reply))
  {
    ReplyValue(reply, toFloat)
  }

  /** Only the command written before the read differs from
      `query_voltage_compliance`; the reply is read the same way. */
  function QueryCurrentSourceAmplitude(reply: string, toFloat: FloatParser): (v: Option<real>)
    ensures v == QueryVoltageCompliance(reply, toFloat)
  {
    ReplyValue(reply, toFloat)
  }

  /** `scan_channel`: one ":READ?" per repetition (`replies[i]` is the i-th
      answer), each value rounded to five decimals, in read order. A reply
      float() rejects aborts the scan. range(0, times) is empty for times <= 0. */
  method ScanChannel(replies: seq<string>, times: int, toFloat: FloatParser) returns (out: Option<seq<real>>)
    requires times <= |replies|
    ensures out.Some? <==> forall i :: 0 <= i < times ==> toFloat(Token(replies[i])).Some?
    ensures out.Some? ==> |out.value| == (if times > 0 then times else 0)
    ensures out.Some? ==> forall i :: 0 <= i < |out.value| ==>
              out.value[i] == Decimal.Round(toFloat(Token(replies[i])).value, 5)
  {
    var acc: seq<real> := [];
    var i := 0;
    while i < times
      invariant 0 <= i <= (if times > 0 then times else 0)
      invariant |acc| == i
      invariant forall j :: 0 <= j < i ==> toFloat(Token(replies[j])).Some?
      invariant forall j :: 0 <= j < i ==> acc[j] == Decimal.Round(toFloat(Token(replies[j])).value, 5)
    {
      var v := ParseFloat(replies[i], toFloat);
      if v.None? {
        return None;
      }
      acc := acc + [Decimal.Round(v.value, 5)];
      i := i + 1;
    }
    return Some(acc);
  }

  // ---------------------------------------------------------------------
  // Properties of the token extraction
  // ---------------------------------------------------------------------

  lemma {:induction false} FirstFieldOfJoin(head: string, rest: string)
    requires ',' !in head
    ensures FirstField(head + "," + rest) == head
    decreases |head|
  {
    if |head| > 0 {
      assert (head + "," + rest)[1..] == head[1..] + "," + rest;
      FirstFieldOfJoin(head[1..], rest);
    } else {
      assert (head + "," + rest)[0] == ',';
    }
  }

  /** A prefix free of the pattern's first character passes through unchanged. */
  lemma {:induction false} RemoveAllPrefix(x: string, y: string, pat: string)
    requires |pat| > 0 && pat[0] !in x
    ensures RemoveAll(x + y, pat) == x + RemoveAll(y, pat)
    decreases |x|
  {
    if |x| == 0 {
      assert x + y == y;
    } else {
      var s := x + y;
      assert s[0] == x[0] && s[1..] == x[1..] + y;
      assert pat[0] !in x[1..] by {
        assert forall i :: 0 <= i < |x[1..]| ==> x[1..][i] == x[i + 1];
      }
      RemoveAllStep(s, pat);
      RemoveAllPrefix(x[1..], y, pat);
      calc {
        RemoveAll(s, pat);
        [x[0]] + RemoveAll(x[1..] + y, pat);
        [x[0]] + (x[1..] + RemoveAll(y, pat));
        { Regroup([x[0]], x[1..], RemoveAll(y, pat));
          assert [x[0]] + x[1..] == x; }
        x + RemoveAll(y, pat);
      }
    }
  }

  /** An occurrence of the pattern after a prefix free of its first
      character is dropped, and the pass continues after it. */
  lemma RemoveAllOccurrence(x: string, y: string, pat: string)
    requires |pat| > 0 && pat[0] !in x
    ensures RemoveAll(x + pat + y, pat) == x + RemoveAll(y, pat)
  {
    RemoveAllPrefix(x, pat + y, pat);
    Regroup(x, pat, y);
    var s := pat + y;
    assert s[..|pat|] == pat && s[|pat|..] == y;
  }

  lemma Regroup(a: string, b: string, c: string)
    ensures a + (b + c) == (a + b) + c
  {
  }

  /** A first character that cannot start the pattern is kept. */
  lemma RemoveAllStep(s: string, pat: string)
    requires |pat| > 0 && |s| > 0 && s[0] != pat[0]
    ensures RemoveAll(s, pat) == [s[0]] + RemoveAll(s[1..], pat)
  {
    if |s| < |pat| {
      assert RemoveAll(s, pat) == s;
      assert RemoveAll(s[1..], pat) == s[1..];
      assert [s[0]] + s[1..] == s;
    } else {
      assert s[..|pat|] != pat by {
        assert s[..|pat|][0] != pat[0];
      }
    }
  }

  /** Facts about the two unit suffixes needed below. */
  lemma UnitSuffixes()
    ensures RemoveAll("NVDC", "NVDC") == ""
    ensures RemoveAll("NVAC", "NVAC") == ""
    ensures RemoveAll("NVDC", "NVAC") == "NVDC"
    ensures RemoveAll("NVAC", "NVDC") == "NVAC"
  {
    var dc := "NVDC";
    var ac := "NVAC";
    assert dc[..4] == dc && ac[..4] == ac;
    assert dc[4..] == "" && ac[4..] == "";
    assert dc[2] != ac[2];
    assert dc[1..] == "VDC" && ac[1..] == "VAC";
    assert 'N' !in "VDC" && 'N' !in "VAC";
    assert RemoveAll(dc, ac) == [dc[0]] + RemoveAll(dc[1..], ac);
    assert RemoveAll(ac, dc) == [ac[0]] + RemoveAll(ac[1..], dc);
  }

  /** Only the text before the first comma matters. */
  lemma TokenIgnoresLaterFields(head: string, rest: string)
    requires ',' !in head
    ensures Token(head + "," + rest) == Token(head)
  {
    FirstFieldOfJoin(head, rest);
    assert FirstField(head) == head by {
      FirstFieldOfJoin(head, "");
      assert head + "," + "" == head + ",";
      if FirstField(head) != head {
        assert |FirstField(head)| < |head|;
      }
    }
  }

  /** A value followed by its "NVDC" or "NVAC" unit suffix reads as the bare value. */
  lemma TokenStripsUnit(value: string, unit: string, rest: string)
    requires unit == "NVDC" || unit == "NVAC"
    requires ',' !in value && 'N' !in value
    ensures Token(value + unit + "," + rest) == value
  {
    assert ',' !in value + unit;
    FirstFieldOfJoin(value + unit, rest);
    UnitSuffixes();
    RemoveAllPrefix(value, unit, "NVDC");
    var once := value + RemoveAll(unit, "NVDC");
    assert RemoveAll(value + unit, "NVDC") == once;
    if unit == "NVDC" {
      assert once == value + "";
      assert RemoveAll(value, "NVAC") == value;
    } else {
      assert once == value + "NVAC";
      RemoveAllPrefix(value, "NVAC", "NVAC");
      assert value + "" == value;
    }
  }

  /** The reading line documented in the driver,
      "-38.3204E-03NVDC,+73597.273513SECS,+39170RDNG#,00EXTCHAN",
      yields "-38.3204E-03" (the line is written as its value, unit and
      remaining fields). */
  lemma SampleReading()
    ensures Token("-38.3204E-03" + "NVDC" + "," + "+73597.273513SECS,+39170RDNG#,00EXTCHAN") == "-38.3204E-03"
  {
    TokenStripsUnit("-38.3204E-03", "NVDC", "+73597.273513SECS,+39170RDNG#,00EXTCHAN");
  }

  /** `query_voltage` leaves a DC reading's "NVDC" suffix in place, so the
      text it converts differs from what `parse_float` converts. */
  lemma QueryVoltageKeepsDcSuffix(value: string, rest: string)
    requires ',' !in value && 'N' !in value
    ensures QueryVoltageToken(value + "NVDC" + "," + rest) == value + "NVDC"
    ensures Token(value + "NVDC" + "," + rest) == value
  {
    assert ',' !in value + "NVDC";
    FirstFieldOfJoin(value + "NVDC", rest);
    RemoveAllPrefix(value, "NVDC", "NVAC");
    UnitSuffixes();
    TokenStripsUnit(value, "NVDC", rest);
  }

  /** `query_voltage` does strip an AC reading's "NVAC" suffix. */
  lemma QueryVoltageStripsAcSuffix(value: string, rest: string)
    requires ',' !in value && 'N' !in value
    ensures QueryVoltageToken(value + "NVAC" + "," + rest) == value
  {
    assert ',' !in value + "NVAC";
    FirstFieldOfJoin(value + "NVAC", rest);
    RemoveAllOccurrence(value, "", "NVAC");
    assert value + "NVAC" + "" == value + "NVAC";
    assert RemoveAll("", "NVAC") == "";
    assert value + "" == value;
  }
}
