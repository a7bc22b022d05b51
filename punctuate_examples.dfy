/** `heuristic_punctuate` on a short sentence with a connective word. */
module PunctuationExamples {
  import opened PyText
  import opened Punctuation

  /** Without letters or digits the spacing substitutions change nothing. */
  lemma {:induction false} SpacePairsNoAlnum(s: string, cjkFirst: bool)
    requires forall i :: 0 <= i < |s| ==> !IsAsciiAlnum(s[i])
    ensures SpacePairs(s, cjkFirst) == s
    decreases |s|
  {
    if |s| >= 2 {
      SpacePairsNoAlnum(s[1..], cjkFirst);
    }
  }

  /** A connector whose first character does not occur is never matched. */
  lemma {:induction false} ConnectorAbsent(t: string, c: string, i: nat)
    requires c != [] && i <= |t| && c[0] !in t[i..]
    ensures ConnectorFrom(t, c, i) == t[i..]
    decreases |t| - i
  {
    if i < |t| {
      assert t[i] == t[i..][0];
      if i + |c| <= |t| {
        assert t[i..i + |c|][0] == t[i];
      }
      assert t[i + 1..] == t[i..][1..];
      ConnectorAbsent(t, c, i + 1);
      assert t[i..] == [t[i]] + t[i + 1..];
    }
  }

  const RAIN := "下雨然後回家"
  const RAIN_COMMA := "下雨，然後回家"

  lemma {:induction false} RainSpaced()
    ensures Spaced(RAIN) == RAIN
  {
    assert forall i :: 0 <= i < |RAIN| ==> !IsSpace(RAIN[i]) && !IsAsciiAlnum(RAIN[i]);
    StripIdentity(RAIN);
    CollapseIdentity(RAIN);
    SpacePairsNoAlnum(RAIN, true);
    SpacePairsNoAlnum(RAIN, false);
  }

  lemma {:induction false} RainFirstPass()
    ensures ConnectorFrom(RAIN, "然後", 0) == RAIN_COMMA
  {
    var t := RAIN;
    assert t[0..2][0] == '下' && t[1..3][0] == '雨';
    assert t[2..4] == "然後";
    assert t[4..] == "回家";
    ConnectorAbsent(t, "然後", 4);
    assert "，" + "然後" + "回家" == "，然後回家";
  }

  lemma {:induction false} RainOtherPasses(k: nat)
    requires 1 <= k <= |CONNECTORS|
    ensures ApplyConnectors(RAIN_COMMA, k) == RAIN_COMMA
    decreases |CONNECTORS| - k
  {
    if k < |CONNECTORS| {
      var c := CONNECTORS[k];
      assert c != [] && c[0] !in RAIN_COMMA by {
        assert k == 1 || k == 2 || k == 3 || k == 4 || k == 5 || k == 6 || k == 7 || k == 8 || k == 9;
      }
      ConnectorAbsent(RAIN_COMMA, c, 0);
      RainOtherPasses(k + 1);
    }
  }

  /** A lone comma is left alone by the comma collapse. */
  lemma {:induction false} CollapseSingleCommas(s: string)
    requires NoDoubleComma(s)
    ensures CollapseCommas(s) == s
    decreases |s|
  {
    if s != [] {
      if s[0] == '，' {
        assert CommaRun(s) == 1 by {
          if |s| > 1 {
            assert s[1] != '，';
          }
        }
      }
      CollapseSingleCommas(s[1..]);
    }
  }

  lemma {:induction false} RainConnectors()
    ensures CollapseCommas(ApplyConnectors(RAIN, 0)) == RAIN_COMMA
  {
    assert CONNECTORS[0] == "然後";
    assert ApplyConnectors(RAIN, 0) == ApplyConnectors(ConnectorFrom(RAIN, "然後", 0), 1);
    RainFirstPass();
    RainOtherPasses(1);
    assert NoDoubleComma(RAIN_COMMA) by {
      assert forall i :: 0 <= i < |RAIN_COMMA| && i != 2 ==> RAIN_COMMA[i] != '，';
    }
    CollapseSingleCommas(RAIN_COMMA);
  }

  lemma {:induction false} RainKind()
    ensures CollapseSpaces(Strip(RAIN)) == RAIN && HasCjk(RAIN) && !HasPunct(RAIN)
  {
    RainTrimmed();
    RainCjk();
    RainUnpunctuated();
  }

  lemma {:induction false} RainTrimmed()
    ensures CollapseSpaces(Strip(RAIN)) == RAIN
  {
    assert forall i :: 0 <= i < |RAIN| ==> !IsSpace(RAIN[i]);
    StripIdentity(RAIN);
    CollapseIdentity(RAIN);
  }

  lemma {:induction false} RainCjk()
    ensures HasCjk(RAIN)
  {
    assert IsCjk(RAIN[0]);
  }

  lemma {:induction false} RainUnpunctuated()
    ensures !HasPunct(RAIN)
  {
  }

  /** The connective 然後 gets a comma before it and the sentence a final 。. */
  lemma {:induction false} RainExample()
    ensures HeuristicPunctuate(RAIN) == "下雨，然後回家。"
  {
    RainKind();
    RainSpaced();
    RainConnectors();
    assert !EndsWith(RAIN_COMMA, "。") && !EndsWith(RAIN_COMMA, "！") && !EndsWith(RAIN_COMMA, "？");
    assert RAIN_COMMA + "。" == "下雨，然後回家。";
  }
}
