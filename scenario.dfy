/**
 * A whole run for one input line: the codes parsed from the text, then the
 * entry built for each of them.
 */
module Scenario {
  import opened Wrappers
  import opened CodeParser
  import opened Classifier
  import opened Advisor
  import opened Report

  /** Three pieces separated by a comma and a space split like the pieces joined by single spaces. */
  lemma CommaSpaceJoin(a: string, b: string, c: string)
    ensures Split(a + [',', ' '] + b + [',', ' '] + c) == Split(JoinPieces([a, b, c], ' '))
  {
    assert a + [',', ' '] + b + [',', ' '] + c == a + [',', ' '] + (b + [',', ' '] + c);
    SeparatorRun(a, ',', ' ', b + [',', ' '] + c);
    assert a + [' '] + (b + [',', ' '] + c) == (a + [' '] + b) + [',', ' '] + c;
    SeparatorRun(a + [' '] + b, ',', ' ', c);
    assert [a, b, c][1..] == [b, c] && [b, c][1..] == [c];
    assert JoinPieces([c], ' ') == c;
    assert JoinPieces([b, c], ' ') == b + [' '] + c;
    assert JoinPieces([a, b, c], ' ') == a + [' '] + (b + [' '] + c);
    assert a + [' '] + (b + [' '] + c) == (a + [' '] + b) + [' '] + c;
  }

  /** A comma followed by a space separates codes like a single space. */
  lemma ScenarioSplit(text: string)
    requires text == "P0171, P0300, P0420"
    ensures Split(Upper(Strip(text))) == ["P0171", "P0300", "P0420"]
  {
    StripOfTrimmed(text);
    UpperOfUpper(text);
    assert text == "P0171" + [',', ' '] + "P0300" + [',', ' '] + "P0420";
    CommaSpaceJoin("P0171", "P0300", "P0420");
    SplitJoin(["P0171", "P0300", "P0420"], ' ');
  }

  lemma ScenarioCodes(pieces: seq<string>)
    requires pieces == ["P0171", "P0300", "P0420"]
    ensures Codes(pieces) == [171, 300, 420]
  {
    TokensAccepted();
    PrefixIsOptional("0300");
    assert "P0300" == ['P'] + "0300";
    PrefixIsOptional("0420");
    assert "P0420" == ['P'] + "0420";
    assert pieces[2..] == ["P0420"] && pieces[2..][1..] == [];
    assert Codes(pieces[2..]) == [420];
    assert pieces[1..][1..] == pieces[2..];
    assert Codes(pieces[1..]) == [300, 420];
  }

  /** The three codes of the line come out once each, in the order typed. */
  lemma ScenarioInput()
    ensures Parse("P0171, P0300, P0420") == Some([171, 300, 420])
  {
    var pieces := ["P0171", "P0300", "P0420"];
    ScenarioSplit("P0171, P0300, P0420");
    ShortPieces(pieces);
    ScenarioCodes(pieces);
    assert Distinct([171, 300, 420]);
    DedupOfDistinct([171, 300, 420]);
  }

  /** 171 is a fuel-trim code of the fuel system and carries the lean-mixture note. */
  lemma LeanEntry()
    ensures Classify(171) == FuelTrim
    ensures Entry(171)[1].notes == Some(LeanNote)
  {
    FuelTrimRange(171);
    EntryNotes(171);
    SharedNotes();
  }

  /** 300 is the random-misfire code and carries the random-misfire note. */
  lemma MisfireEntry()
    ensures Classify(300) == CodeInfo("MISFIRE", "Misfire aleatorio/múltiple (P0300)", true)
    ensures Entry(300)[1].notes == Some(MisfireNote)
  {
    RandomMisfire();
    EntryNotes(300);
    SharedNotes();
  }

  /** 420 is a catalyst code and carries the catalyst note. */
  lemma CatalystEntry()
    ensures Classify(420) == CodeInfo("CAT", "Catalizador por debajo del umbral (B1)", true)
    ensures Entry(420)[1].notes == Some(CatalystNote)
  {
    CatalystCodes();
    EntryNotes(420);
    SharedNotes();
  }

  /** A transmission code gets only its card and the transmission notice. */
  lemma TransmissionEntry()
    ensures Classify(850).system == "TRANSMISION"
    ensures |Entry(850)| == 2 && Entry(850)[1] == TransmissionNotice
  {
    TransmissionCodes(850);
  }
}
