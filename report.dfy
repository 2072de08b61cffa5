/**
 * The report entry for one code: a card with the code's label, description
 * and subsystem text, then either the transmission notice or the diagnostic
 * steps (with the special note when there is one) and the recommendations.
 * The markup around these parts is not modelled; the entry is the sequence
 * of its parts.
 */
module Report {
  import opened Wrappers
  import opened CodeParser
  import opened Classifier
  import opened Knowledge
  import opened Advisor

  // ---------------------------------------------------------------------
  // Labels
  // ---------------------------------------------------------------------

  function DigitChar(d: nat): char
    requires d < 10
  {
    ('0' as int + d) as char
  }

  /** The decimal digits of n, without leading zeros ("0" for zero). */
  function Decimal(n: nat): (s: string)
    ensures |s| >= 1 && forall i | 0 <= i < |s| :: IsDigit(s[i])
    ensures n < 10 ==> |s| == 1
    ensures n < 100 ==> |s| <= 2
    ensures n < 1000 ==> |s| <= 3
    ensures n < 10000 ==> |s| <= 4
  {
    if n < 10 then [DigitChar(n)] else Decimal(n / 10) + [DigitChar(n % 10)]
  }

  function Zeros(k: nat): (z: string)
    ensures |z| == k && forall i | 0 <= i < k :: z[i] == '0'
  {
    seq(k, i => '0')
  }

  /** s widened to width characters by zeros on the left. */
  function ZeroPad(s: string, width: nat): (padded: string)
    ensures |padded| >= width && |padded| >= |s|
    ensures |s| <= width ==> |padded| == width
  {
    if |s| < width then Zeros(width - |s|) + s else s
  }

  /**
   * An integer written with at least four characters, zero-padded after any
   * minus sign: four digits up to 9999, and for a number that is not
   * negative, digits that read back as the number.
   */
  function Format04(n: int): (s: string)
    ensures |s| >= 4
    ensures 0 <= n <= 9999 ==> |s| == 4
    ensures n >= 0 ==> IsDigits(s) && DigitsValue(s) == n
    ensures n < 0 ==> s[0] == '-'
  {
    if n >= 0 then
      DecimalValue(n);
      ZeroPadValue(Decimal(n), 4);
      ZeroPad(Decimal(n), 4)
    else "-" + ZeroPad(Decimal(-n), 3)
  }

  /** Zeros on the left keep a string of digits all digits, and keep its value. */
  lemma ZeroPadValue(s: string, width: nat)
    requires forall i | 0 <= i < |s| :: IsDigit(s[i])
    ensures forall i | 0 <= i < |ZeroPad(s, width)| :: IsDigit(ZeroPad(s, width)[i])
    ensures DigitsValue(ZeroPad(s, width)) == DigitsValue(s)
  {
    if |s| < width {
      HornerZeros(Zeros(width - |s|), s);
    }
  }

  /** The label a code is shown under: P and its four-digit number. */
  function Label(n: int): (shown: string)
    ensures |shown| >= 5 && shown[0] == 'P'
    ensures 0 <= n <= 9999 ==> |shown| == 5
  {
    "P" + Format04(n)
  }

  /** The labels of a list of codes. */
  function Labels(codes: seq<int>): (labels: seq<string>)
    ensures |labels| == |codes|
  {
    seq(|codes|, i requires 0 <= i < |codes| => Label(codes[i]))
  }

  /** The labels of the codes, separated by single spaces. */
  function LabelsText(codes: seq<int>): string
  {
    JoinPieces(Labels(codes), ' ')
  }

  // ---------------------------------------------------------------------
  // Entries
  // ---------------------------------------------------------------------

  /** The parts of a report entry, in the order they are shown. */
  datatype Block =
    | Card(code: string, desc: string, system: string)
    | TransmissionNotice
    | Diagnosis(steps: seq<string>, notes: Option<string>)
    | Advice(items: seq<string>)

  /**
   * The entry for code n: the card with the code's label, then for a
   * transmission code the notice alone, and for any other code the diagnosis
   * and the recommendations.
   */
  function Entry(n: int): (blocks: seq<Block>)
    ensures |blocks| >= 2 && blocks[0].Card? && blocks[0].code == Label(n)
    ensures 700 <= n <= 999 ==> blocks == [blocks[0], TransmissionNotice]
    ensures !(700 <= n <= 999) ==> |blocks| == 3 && blocks[1].Diagnosis? && blocks[2].Advice?
  {
    EngineScope(n);
    var info := Classify(n);
    var card := Card(Label(n), info.desc, SystemText(info.system));
    if !info.engine then [card, TransmissionNotice]
    else
      var notes := Notes(n);
      [card,
       Diagnosis(StepTemplate(info.system), if notes == [] then None else Some(JoinPieces(notes, ' '))),
       Advice(Recommendations(info.system))]
  }

  /** Builds the entry for code n part by part. */
  method RenderEntry(n: int) returns (blocks: seq<Block>)
    ensures blocks == Entry(n)
  {
    var code := Label(n);
    var info := Classify(n);
    blocks := [Card(code, info.desc, SystemText(info.system))];
    if !info.engine {
      blocks := blocks + [TransmissionNotice];
    } else {
      var steps := DiagnosticSteps(info.system, "");
      var extra := SpecialNotes(n);
      var notes: Option<string> := None;
      if extra != [] {
        notes := Some(JoinPieces(extra, ' '));
      }
      blocks := blocks + [Diagnosis(steps, notes)];
      var recs := Recommendations(info.system);
      blocks := blocks + [Advice(recs)];
    }
  }

  // ---------------------------------------------------------------------
  // Labels parse back to their codes
  // ---------------------------------------------------------------------

  /** The decimal digits of n read back as n. */
  lemma {:induction false} DecimalValue(n: nat)
    ensures DigitsValue(Decimal(n)) == n
  {
    var c := DigitChar(n % 10);
    assert c as int - '0' as int == n % 10;
    if n < 10 {
      assert Decimal(n) == [] + [c];
      HornerSnoc(0, [], c);
    } else {
      assert Decimal(n) == Decimal(n / 10) + [c];
      DecimalValue(n / 10);
      HornerSnoc(0, Decimal(n / 10), c);
    }
  }

  /** Codes are shown with four digits. */
  lemma CodeLabels()
    ensures Label(171) == "P0171" && Label(5) == "P0005"
  {
    assert Decimal(171) == Decimal(17) + ['1'];
  }

  /** A number past four digits keeps all of them. */
  lemma WideLabel()
    ensures Label(12345) == "P12345"
  {
    assert Decimal(12345) == Decimal(1234) + ['5'];
    assert Decimal(1234) == Decimal(123) + ['4'];
    assert Decimal(123) == Decimal(12) + ['3'];
  }

  /** A negative number is padded after its sign. */
  lemma NegativeLabel()
    ensures Label(-7) == "P-007"
  {
  }

  /** A code's label is one piece: non-empty, no separator, no lower case; and it reads back as the code. */
  lemma LabelCode(n: int)
    requires 1 <= n <= 999
    ensures Label(n) != [] && NoSeparator(Label(n)) && NoLower(Label(n))
    ensures TokenCode(Label(n)) == Some(n)
  {
    var d := Format04(n);
    assert Label(n) == ['P'] + d;
    assert Label(n)[1..] == d;
    forall i | 1 <= i < |Label(n)| ensures Label(n)[i] == d[i - 1] {}
  }

  lemma {:induction false} CodesOfLabels(codes: seq<int>)
    requires forall i | 0 <= i < |codes| :: 1 <= codes[i] <= 999
    ensures Codes(Labels(codes)) == codes
  {
    if codes != [] {
      assert Labels(codes)[1..] == Labels(codes[1..]);
      LabelCode(codes[0]);
      CodesOfLabels(codes[1..]);
    }
  }

  /**
   * Labels of codes in 1..999 written out with single spaces parse back to
   * the codes with repeats dropped; a list without repeats comes back as it
   * was.
   */
  lemma ParseLabels(codes: seq<int>)
    requires forall i | 0 <= i < |codes| :: 1 <= codes[i] <= 999
    ensures Parse(LabelsText(codes)) == Some(Dedup(codes))
    ensures Distinct(codes) ==> Parse(LabelsText(codes)) == Some(codes)
  {
    if codes == [] {
      assert Split(Upper(Strip([]))) == [[]];
      ShortPieces([[]]);
      assert Codes([[]]) == [];
    } else {
      forall k | 0 <= k < |codes|
        ensures Labels(codes)[k] != [] && NoSeparator(Labels(codes)[k]) && NoLower(Labels(codes)[k])
        ensures |Labels(codes)[k]| <= MaxStrDigits
      {
        LabelCode(codes[k]);
      }
      ShortPieces(Labels(codes));
      ParseJoined(Labels(codes));
      CodesOfLabels(codes);
    }
    if Distinct(codes) {
      DedupOfDistinct(codes);
    }
  }

  /** One code's label parses back to that code alone. */
  lemma ParseLabel(n: int)
    requires 1 <= n <= 999
    ensures Parse(Label(n)) == Some([n])
  {
    ParseLabels([n]);
    assert Labels([n]) == [Label(n)];
  }

  /** Writing out the parsed codes as labels and parsing again changes nothing. */
  lemma ParseStable(text: string)
    ensures Parse(text).Some? ==> Parse(LabelsText(Parse(text).value)) == Parse(text)
  {
    if Parse(text).Some? {
      ParseLabels(Parse(text).value);
    }
  }

  // ---------------------------------------------------------------------
  // The shape of an entry
  // ---------------------------------------------------------------------

  /**
   * Every entry opens with the code's card: its label, its description and
   * the description of its tag; only a code outside 1..999 shows the
   * GENERAL description.
   */
  lemma EntryCard(n: int)
    ensures Entry(n)[0].desc == Classify(n).desc
    ensures Description(Classify(n).system).Some?
    ensures Entry(n)[0].system == Description(Classify(n).system).value
  {
  }

  /** The diagnosis carries a note exactly for the codes that have one, and then that note alone. */
  lemma EntryNotes(n: int)
    ensures Entry(n)[1].Diagnosis? && Entry(n)[1].notes.Some? <==> n in NotedCodes
    ensures n in NotedCodes ==> Entry(n)[1].notes == Some(Notes(n)[0]) && |Notes(n)| == 1
  {
    EngineScope(n);
    if n in NotedCodes {
      assert |Notes(n)| == 1;
      assert JoinPieces(Notes(n), ' ') == Notes(n)[0];
    }
  }

  /**
   * A code in 1..699 gets the steps and the recommendations of its own tag,
   * without any extra step.
   */
  lemma EngineEntryKnowledge(n: int)
    requires 1 <= n <= 699
    ensures |Entry(n)| == 3 && Entry(n)[1].Diagnosis? && Entry(n)[2].Advice?
    ensures OwnSteps(Classify(n).system).Some? && OwnRecommendations(Classify(n).system).Some?
    ensures Entry(n)[1].steps == StepTexts(OwnSteps(Classify(n).system).value)
    ensures Entry(n)[2].items == RecommendationTexts(OwnRecommendations(Classify(n).system).value)
  {
    EngineCodes(n);
    StepCoverage();
    RecommendationCoverage();
  }

  /** A code outside 1..999 gets the generic steps and the GENERAL recommendations. */
  lemma GeneralEntryKnowledge(n: int)
    requires !(1 <= n <= 999)
    ensures |Entry(n)| == 3 && Entry(n)[1].Diagnosis? && Entry(n)[2].Advice?
    ensures Entry(n)[1].steps == StepTexts(GenericSteps)
    ensures Entry(n)[2].items == Recommendations("GENERAL")
  {
    OutOfRange(n);
    EngineScope(n);
  }
}
