/**
 * The special-note selector: a few code numbers carry a short workshop note
 * of their own, chosen by the number alone, whatever its subsystem.
 */
module Advisor {

  /** A note and the codes it is given for. */
  datatype NoteRule = NoteRule(codes: set<int>, note: string)

  const LeanNote := "Lean crónico: fugas de vacío, PCV trabada, MAF sucio, purga EVAP abierta."
  const RichNote := "Rica crónica: presión de combustible alta, inyector trabado, retorno obstruido."
  const CatalystNote := "Catalizador: revisar misfire y mezcla previa; un fallo upstream destruye el catalizador."
  const MisfireNote := "Misfire aleatorio: alimentación bobinas, masas comunes y vibraciones/cables."
  const TimingNote := "Sincronismo: chequear correlación CKP–CMP (grados) y estado de correa/cadena."

  /** The note rules, in the order their notes are collected. */
  const NoteRules: seq<NoteRule> := [
    NoteRule({171, 174}, LeanNote),
    NoteRule({172, 175}, RichNote),
    NoteRule({420, 430}, CatalystNote),
    NoteRule({300}, MisfireNote),
    NoteRule({335, 340}, TimingNote)
  ]

  /** The codes that carry a note. */
  const NotedCodes: set<int> := {171, 172, 174, 175, 300, 335, 340, 420, 430}

  /** The notes of every rule that names n, in rule order. */
  function NotesFrom(rules: seq<NoteRule>, n: int): seq<string>
  {
    if rules == [] then []
    else (if n in rules[0].codes then [rules[0].note] else []) + NotesFrom(rules[1..], n)
  }

  /** The notes for code n: at most one, and one exactly for the codes that carry a note. */
  function Notes(n: int): (notes: seq<string>)
    ensures |notes| <= 1
    ensures notes != [] <==> n in NotedCodes
  {
    NoteRulesDisjoint();
    AtMostOne(NoteRules, n);
    NotedCodesNamed(n);
    NotesFrom(NoteRules, n)
  }

  /** Collects the notes for n, one test per rule. */
  method SpecialNotes(n: int) returns (tips: seq<string>)
    ensures tips == Notes(n)
  {
    tips := [];
    if n == 171 || n == 174 {
      tips := tips + [LeanNote];
    }
    if n == 172 || n == 175 {
      tips := tips + [RichNote];
    }
    if n == 420 || n == 430 {
      tips := tips + [CatalystNote];
    }
    if n == 300 {
      tips := tips + [MisfireNote];
    }
    if n == 335 || n == 340 {
      tips := tips + [TimingNote];
    }
    NotesUnfolded(n);
  }

  /** The rule list written out, one rule at a time. */
  lemma NotesUnfolded(n: int)
    ensures Notes(n) ==
      (if n in {171, 174} then [LeanNote] else [])
      + (if n in {172, 175} then [RichNote] else [])
      + (if n in {420, 430} then [CatalystNote] else [])
      + (if n in {300} then [MisfireNote] else [])
      + (if n in {335, 340} then [TimingNote] else [])
  {
    var r := NoteRules;
    var t4 := if n in {335, 340} then [TimingNote] else [];
    var t3 := if n in {300} then [MisfireNote] else [];
    var t2 := if n in {420, 430} then [CatalystNote] else [];
    var t1 := if n in {172, 175} then [RichNote] else [];
    assert r[4..][1..] == [];
    assert NotesFrom(r[4..], n) == t4 + [] == t4;
    assert r[3..][1..] == r[4..];
    assert NotesFrom(r[3..], n) == t3 + t4;
    assert r[2..][1..] == r[3..];
    assert NotesFrom(r[2..], n) == t2 + (t3 + t4);
    assert r[1..][1..] == r[2..];
    assert NotesFrom(r[1..], n) == t1 + (t2 + (t3 + t4));
  }

  /** The code sets of the rules are pairwise disjoint. */
  predicate Disjoint(rules: seq<NoteRule>)
  {
    forall i, j | 0 <= i < j < |rules| :: rules[i].codes !! rules[j].codes
  }

  /** Under disjoint rules a code gets at most one note, and one exactly when a rule names it. */
  lemma {:induction false} AtMostOne(rules: seq<NoteRule>, n: int)
    requires Disjoint(rules)
    ensures |NotesFrom(rules, n)| <= 1
    ensures NotesFrom(rules, n) != [] <==> exists i | 0 <= i < |rules| :: n in rules[i].codes
  {
    if rules != [] {
      var rest := rules[1..];
      assert Disjoint(rest) by {
        forall i, j | 0 <= i < j < |rest| ensures rest[i].codes !! rest[j].codes {
          assert rest[i] == rules[i + 1] && rest[j] == rules[j + 1];
        }
      }
      AtMostOne(rest, n);
      if n in rules[0].codes {
        forall i | 0 <= i < |rest| ensures n !in rest[i].codes {
          assert rest[i] == rules[i + 1];
        }
      } else {
        if exists i | 0 <= i < |rules| :: n in rules[i].codes {
          var i :| 0 <= i < |rules| && n in rules[i].codes;
          assert rest[i - 1] == rules[i];
        }
        if exists i | 0 <= i < |rest| :: n in rest[i].codes {
          var i :| 0 <= i < |rest| && n in rest[i].codes;
          assert rest[i] == rules[i + 1];
        }
      }
    }
  }

  /** No code is named by two rules. */
  lemma NoteRulesDisjoint()
    ensures Disjoint(NoteRules)
  {
  }

  /** The codes that carry a note are exactly those some rule names. */
  lemma NotedCodesNamed(n: int)
    ensures n in NotedCodes <==> exists i | 0 <= i < |NoteRules| :: n in NoteRules[i].codes
  {
    if n in NotedCodes {
      var i := if n in {171, 174} then 0 else if n in {172, 175} then 1
        else if n in {420, 430} then 2 else if n == 300 then 3 else 4;
      assert n in NoteRules[i].codes;
    }
  }

  /** Lean and rich mixture codes, the catalyst codes and the timing codes share their notes pairwise. */
  lemma SharedNotes()
    ensures Notes(171) == Notes(174) == [LeanNote]
    ensures Notes(172) == Notes(175) == [RichNote]
    ensures Notes(420) == Notes(430) == [CatalystNote]
    ensures Notes(335) == Notes(340) == [TimingNote]
    ensures Notes(300) == [MisfireNote]
  {
    NotesUnfolded(171);
    NotesUnfolded(174);
    NotesUnfolded(172);
    NotesUnfolded(175);
    NotesUnfolded(420);
    NotesUnfolded(430);
    NotesUnfolded(335);
    NotesUnfolded(340);
    NotesUnfolded(300);
  }
}
