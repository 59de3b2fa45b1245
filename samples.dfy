// Concrete inputs: what parse gives for particular texts, and the precedence chain of
// version_test.go, each as an instance of the general lemmas. The text of each input is built
// up one piece at a time, as the general lemmas state it.
module Samples {
  import opened Wrappers
  import opened Decimal
  import opened Tokens
  import opened VersionData
  import opened Parsing
  import opened Versions
  import opened RoundTrip
  import opened Precedence
  import opened ParseCases

  // ---------------------------------------------------------------------------------------------
  // Accepted texts

  lemma MajorSample()
    ensures ParseSrc("0") == Ok(Version(0, 0, 0, None, None))
  {
    MajorOnly("0");
  }

  lemma MinorSample()
    ensures ParseSrc("0.1") == Ok(Version(0, 1, 0, None, None))
  {
    MajorMinor("0", "1");
    assert "0" + "." == "0.";
    assert "0." + "1" == "0.1";
  }

  lemma PatchSample()
    ensures ParseSrc("0.1.2") == Ok(Version(0, 1, 2, None, None))
  {
    CoreOnly("0", "1", "2");
    assert "0" + "." == "0.";
    assert "0." + "1" == "0.1";
    assert "0.1" + "." == "0.1.";
    assert "0.1." + "2" == "0.1.2";
  }

  /** Leading zeros are read as decimal digits: "0.01.00" is 0.1.0. */
  lemma LeadingZerosSample()
    ensures ParseSrc("0.01.00") == Ok(Version(0, 1, 0, None, None))
  {
    CoreOnly("0", "01", "00");
    ValueSnoc("0", '1');
    assert "0" + ['1'] == "01";
    ValueSnoc("0", '0');
    assert "0" + ['0'] == "00";
    assert "0" + "." == "0.";
    assert "0." + "01" == "0.01";
    assert "0.01" + "." == "0.01.";
    assert "0.01." + "00" == "0.01.00";
  }

  /** "v0" is 0.0.0, as expected; "v12" has major 2, the `1` being dropped with the `v`. */
  lemma VSamples()
    ensures ParseSrc("v0") == Ok(Version(0, 0, 0, None, None))
    ensures ParseSrc("v12") == Ok(Version(2, 0, 0, None, None))
  {
    VPrefixed("0");
    assert "v" + "0" == "v0";
    VPrefixed("12");
    assert "v" + "12" == "v12";
    assert "12"[1..] == "2";
  }

  /** Empty minor slots: "1." and "1.." are 1.0.0. */
  lemma EmptyMinorSamples()
    ensures ParseSrc("1.") == Ok(Version(1, 0, 0, None, None))
    ensures ParseSrc("1..") == Ok(Version(1, 0, 0, None, None))
  {
    EmptyMinorSlot("1", "");
    assert "1" + "." + "" == "1.";
    EmptyMinorSlot("1", ".");
    assert "1" + "." + "." == "1..";
  }

  /** An empty patch slot: "1.2." is 1.2.0. */
  lemma EmptyPatchSample()
    ensures ParseSrc("1.2.") == Ok(Version(1, 2, 0, None, None))
  {
    assert "1" + "." == "1.";
    assert "1." + "2" == "1.2";
    assert "1.2" + "." + "" == "1.2.";
    EmptyPatchSlot("1.2.", "1", "2", "", 3);
  }

  /** Parsing goes on after an empty minor slot: "1.-.2" is 1.0.2. */
  lemma EmptyMinorThroughSample()
    ensures ParseSrc("1.-.2") == Ok(Version(1, 0, 2, None, None))
  {
    var s := "1.-.2";
    assert "1" + "." + "-.2" == s;
    EmptyMinorSlot("1", "-.2");
    DotToken(s, 3);
    ScanRun(s, 4, 5);
    assert s[4..5] == "2";
    DigitsValue("2", 4);
  }

  /** In "1.2.-a" the `-` fills the patch slot, so the identifier after it is rejected at 5. */
  lemma EmptyPatchThroughSample()
    ensures ParseSrc("1.2.-a") == Err(Unexpected("IDENT", 5))
  {
    var s := "1.2.-a";
    assert "1" + "." == "1.";
    assert "1." + "2" == "1.2";
    assert "1.2" + "." + "-a" == s;
    EmptyPatchSlot(s, "1", "2", "-a", 3);
    ScanRun(s, 5, 6);
    NamesOfKinds();
  }

  // ---------------------------------------------------------------------------------------------
  // Rejected texts

  lemma FirstTokenSamples()
    ensures ParseSrc("") == Err(Unexpected("EOF", 0))
    ensures ParseSrc("-1") == Err(Unexpected("-", 0))
    ensures ParseSrc(".") == Err(Unexpected(".", 0))
  {
    FirstTokenRejected("");
    FirstTokenRejected("-1");
    FirstTokenRejected(".");
  }

  lemma BareVSample()
    ensures ParseSrc("v") == Err(Unexpected("EOF", 1))
  {
    BareV("");
    assert "v" + "" == "v";
  }

  lemma NonNumericMinorSample()
    ensures ParseSrc("1.x.0") == Err(Unexpected("x", 2))
  {
    assert !IsDigit("x"[0]);
    NonNumericMinor("1", "x", ".0");
    assert "1" + "." == "1.";
    assert "1." + "x" == "1.x";
    assert "1.x" + ".0" == "1.x.0";
  }

  lemma FourthFieldSample()
    ensures ParseSrc("1.2.3.4") == Err(Unexpected(".", 5))
  {
    AfterPatchRejected("1", "2", "3", ".4");
    assert "1" + "." == "1.";
    assert "1." + "2" == "1.2";
    assert "1.2" + "." == "1.2.";
    assert "1.2." + "3" == "1.2.3";
    assert "1.2.3" + ".4" == "1.2.3.4";
  }

  lemma EmptyListSample()
    ensures ParseSrc("1.0.0-") == Err(Unexpected("EOF", 6))
  {
    EmptyList("1", "0", "0", '-', "");
    assert "1" + "." == "1.";
    assert "1." + "0" == "1.0";
    assert "1.0" + "." == "1.0.";
    assert "1.0." + "0" == "1.0.0";
    assert "1.0.0" + (['-'] + "") == "1.0.0-";
  }

  // ---------------------------------------------------------------------------------------------
  // Precedence

  function Pre(ids: seq<string>): Version {
    Version(1, 0, 0, Some(ids), None)
  }

  /** 1.0.0-alpha < 1.0.0-alpha.1 < 1.0.0-alpha.beta < 1.0.0-beta < 1.0.0-beta.2 < 1.0.0-beta.11
      < 1.0.0-rc.1 < 1.0.0. */
  lemma PrecedenceChain()
    ensures Less(Pre(["alpha"]), Some(Pre(["alpha", "1"])))
    ensures Less(Pre(["alpha", "1"]), Some(Pre(["alpha", "beta"])))
    ensures Less(Pre(["alpha", "beta"]), Some(Pre(["beta"])))
    ensures Less(Pre(["beta"]), Some(Pre(["beta", "2"])))
    ensures Less(Pre(["beta", "2"]), Some(Pre(["beta", "11"])))
    ensures Less(Pre(["beta", "11"]), Some(Pre(["rc", "1"])))
    ensures Less(Pre(["rc", "1"]), Some(Version(1, 0, 0, None, None)))
  {
    ShorterIsLess(["alpha"], ["1"]);
    ShorterIsLess(["beta"], ["2"]);
  }

  /** "0.1.1+a" equals "0.1.1+b". */
  lemma BuildSample()
    ensures Equals(Version(0, 1, 1, None, Some(["a"])), Some(Version(0, 1, 1, None, Some(["b"]))))
  {
    BuildDataIgnored(Version(0, 1, 1, None, None), Version(0, 1, 1, None, None), Some(["a"]), Some(["b"]));
    CompareReflexive(Version(0, 1, 1, None, None));
  }
}
