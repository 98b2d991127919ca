/** The symptom-field tokenizer of the prediction page: the free text is
    split at separator characters, every piece trimmed, empty pieces
    dropped, and an empty result rejected. */
module Intake {
  import opened Base
  import opened Text
  import TriageV2

  /** Which characters split the field. `AsWritten` is the regular
      expression class `[,;\\n]` as the page has it: comma, semicolon,
      backslash and the letter n. `Intended` is comma, semicolon and the
      newline character. */
  datatype Splitter = AsWritten | Intended
  {
    predicate Splits(c: char) {
      match this
      case AsWritten => c == ',' || c == ';' || c == '\\' || c == 'n'
      case Intended => c == ',' || c == ';' || c == '\n'
    }
  }

  /** The pieces between separator characters. The page splits at runs of
      separators (`+`), which differs from this only by empty pieces, and
      empty pieces are dropped below. */
  function SplitAt(s: string, sp: Splitter): (r: seq<string>)
    ensures |r| >= 1
    decreases |s|
  {
    if s == [] then [""]
    else
      var rest := SplitAt(s[1..], sp);
      if sp.Splits(s[0]) then [""] + rest else [[s[0]] + rest[0]] + rest[1..]
  }

  function TrimAll(pieces: seq<string>): (r: seq<string>)
    ensures |r| == |pieces|
    ensures forall i :: 0 <= i < |pieces| ==> r[i] == Trim(pieces[i])
  {
    seq(|pieces|, i requires 0 <= i < |pieces| => Trim(pieces[i]))
  }

  /** `filter(s => s.length > 0)` */
  function NonEmpty(pieces: seq<string>): (r: seq<string>)
    ensures forall i :: 0 <= i < |r| ==> |r[i]| > 0 && r[i] in pieces
    decreases |pieces|
  {
    if pieces == [] then []
    else (if |pieces[0]| > 0 then [pieces[0]] else []) + NonEmpty(pieces[1..])
  }

  /** The filter keeps order: filtering a concatenation is concatenating
      the filtered parts. */
  lemma {:induction false} NonEmptyConcat(a: seq<string>, b: seq<string>)
    ensures NonEmpty(a + b) == NonEmpty(a) + NonEmpty(b)
    decreases |a|
  {
    if a == [] {
      assert a + b == b;
    } else {
      var tail := a[1..];
      assert (a + b)[0] == a[0] && (a + b)[1..] == tail + b;
      NonEmptyConcat(tail, b);
      var h: seq<string> := if |a[0]| > 0 then [a[0]] else [];
      assert NonEmpty(a + b) == h + (NonEmpty(tail) + NonEmpty(b));
    }
  }

  /** The filter drops no non-empty piece. */
  lemma {:induction false} NonEmptyKeepsAll(pieces: seq<string>)
    ensures forall i :: 0 <= i < |pieces| && |pieces[i]| > 0 ==> pieces[i] in NonEmpty(pieces)
    decreases |pieces|
  {
    if pieces != [] {
      NonEmptyKeepsAll(pieces[1..]);
      assert forall i :: 0 < i < |pieces| ==> pieces[i] == pieces[1..][i - 1];
    }
  }

  /** The symptom list the page builds from the field. */
  function Tokenize(input: string, sp: Splitter): seq<string> {
    NonEmpty(TrimAll(SplitAt(input, sp)))
  }

  /** The field is rejected ("Please enter valid symptoms.") when no symptom
      is left. */
  function ParseSymptoms(input: string, sp: Splitter): (r: Option<seq<string>>)
    ensures r.Some? ==> |r.value| > 0 && r.value == Tokenize(input, sp)
    ensures r.None? <==> Tokenize(input, sp) == []
  {
    var tokens := Tokenize(input, sp);
    if |tokens| == 0 then None else Some(tokens)
  }

  /** The field is rejected exactly when it holds nothing but separators
      and white space. */
  lemma Rejected(input: string, sp: Splitter)
    ensures ParseSymptoms(input, sp).None? <==>
      forall j :: 0 <= j < |input| ==> sp.Splits(input[j]) || IsSpace(input[j])
  {
    var pieces := SplitAt(input, sp);
    var tokens := TrimAll(pieces);
    PiecesBlank(input, sp);
    forall i | 0 <= i < |pieces|
      ensures |tokens[i]| == 0 <==> AllSpace(pieces[i])
    {
      TrimEmpty(pieces[i]);
    }
    NonEmptyKeepsAll(tokens);
    if NonEmpty(tokens) != [] {
      var t := NonEmpty(tokens)[0];
      assert |t| > 0 && t in tokens;
    }
  }

  /** Every piece is white space. */
  predicate BlankPieces(pieces: seq<string>) {
    forall i :: 0 <= i < |pieces| ==> AllSpace(pieces[i])
  }

  /** Every character is a separator or white space. */
  predicate Ignorable(s: string, sp: Splitter) {
    forall j :: 0 <= j < |s| ==> sp.Splits(s[j]) || IsSpace(s[j])
  }

  /** Every piece is white space exactly when every character of the field
      is a separator or white space. */
  lemma {:induction false} PiecesBlank(s: string, sp: Splitter)
    ensures BlankPieces(SplitAt(s, sp)) <==> Ignorable(s, sp)
    decreases |s|
  {
    if s != [] {
      var rest := SplitAt(s[1..], sp);
      PiecesBlank(s[1..], sp);
      IgnorableCons(s, sp);
      if sp.Splits(s[0]) {
        assert SplitAt(s, sp) == [""] + rest;
        BlankPiecesCons("", rest);
      } else {
        var head := [s[0]] + rest[0];
        assert SplitAt(s, sp) == [head] + rest[1..];
        assert rest == [rest[0]] + rest[1..];
        BlankPiecesCons(head, rest[1..]);
        BlankPiecesCons(rest[0], rest[1..]);
        AllSpaceCons(s[0], rest[0]);
      }
    }
  }

  lemma IgnorableCons(s: string, sp: Splitter)
    requires s != []
    ensures Ignorable(s, sp) <==> (sp.Splits(s[0]) || IsSpace(s[0])) && Ignorable(s[1..], sp)
  {
    assert forall j :: 0 < j < |s| ==> s[j] == s[1..][j - 1];
    assert forall j :: 0 <= j < |s| - 1 ==> s[1..][j] == s[j + 1];
  }

  lemma BlankPiecesCons(p: string, ps: seq<string>)
    ensures BlankPieces([p] + ps) <==> AllSpace(p) && BlankPieces(ps)
  {
    assert ([p] + ps)[0] == p;
    assert forall i :: 0 < i <= |ps| ==> ([p] + ps)[i] == ps[i - 1];
    assert forall i :: 0 <= i < |ps| ==> ps[i] == ([p] + ps)[i + 1];
  }

  lemma AllSpaceCons(c: char, t: string)
    ensures AllSpace([c] + t) <==> IsSpace(c) && AllSpace(t)
  {
    assert ([c] + t)[0] == c;
    assert forall j :: 0 < j <= |t| ==> ([c] + t)[j] == t[j - 1];
    assert forall j :: 0 <= j < |t| ==> t[j] == ([c] + t)[j + 1];
  }

  /** What the page makes of the field. A blank field is turned away before
      splitting ("Please enter at least one symptom."); a field that leaves
      no symptom after splitting is turned away next ("Please enter valid
      symptoms."); otherwise the symptoms go on to the prediction. */
  datatype FieldOutcome = NothingEntered | NoValidSymptom | SymptomList(symptoms: seq<string>)

  function ReadField(input: string, sp: Splitter): (r: FieldOutcome)
    ensures r.SymptomList? ==> |r.symptoms| > 0 && r.symptoms == Tokenize(input, sp)
  {
    if Trim(input) == [] then NothingEntered
    else
      match ParseSymptoms(input, sp)
      case None => NoValidSymptom
      case Some(tokens) => SymptomList(tokens)
  }

  /** The blank check catches exactly the all-white-space fields, and the
      second message is reached exactly when the field has a character
      that is not white space and every character is a separator or white
      space. */
  lemma ReadFieldOutcomes(input: string, sp: Splitter)
    ensures ReadField(input, sp).NothingEntered? <==> AllSpace(input)
    ensures ReadField(input, sp).NoValidSymptom? <==> !AllSpace(input) && Ignorable(input, sp)
  {
    TrimEmpty(input);
    Rejected(input, sp);
  }

  /** As written, a field of nothing but the letter n leaves no symptom, and
      the page answers it with "Please enter valid symptoms.". */
  lemma OnlyNsRejected()
    ensures ParseSymptoms("nnn", AsWritten).None?
    ensures ReadField("nnn", AsWritten) == NoValidSymptom
  {
    ReadFieldOutcomes("nnn", AsWritten);
    assert !IsSpace("nnn"[0]);
  }

  predicate NoSeparator(t: string, sp: Splitter) {
    forall j :: 0 <= j < |t| ==> !sp.Splits(t[j])
  }

  lemma {:induction false} PiecesHaveNoSeparator(s: string, sp: Splitter)
    ensures forall i :: 0 <= i < |SplitAt(s, sp)| ==> NoSeparator(SplitAt(s, sp)[i], sp)
    decreases |s|
  {
    if s != [] {
      PiecesHaveNoSeparator(s[1..], sp);
    }
  }

  lemma TrimKeepsNoSeparator(t: string, sp: Splitter)
    requires NoSeparator(t, sp)
    ensures NoSeparator(Trim(t), sp)
  {
    TrimShape(t);
    var i, j :| 0 <= i <= j <= |t| && Trim(t) == t[i..j];
    assert forall k :: 0 <= k < |Trim(t)| ==> Trim(t)[k] == t[i + k];
  }

  /** Every symptom the page keeps is non-empty, already trimmed and free of
      separator characters. */
  lemma TokensAreClean(input: string, sp: Splitter)
    ensures forall t :: t in Tokenize(input, sp) ==> |t| > 0 && Trim(t) == t && NoSeparator(t, sp)
  {
    var pieces := SplitAt(input, sp);
    PiecesHaveNoSeparator(input, sp);
    forall t | t in Tokenize(input, sp)
      ensures |t| > 0 && Trim(t) == t && NoSeparator(t, sp)
    {
      var i :| 0 <= i < |pieces| && TrimAll(pieces)[i] == t;
      TrimKeepsNoSeparator(pieces[i], sp);
      TrimIdempotent(pieces[i]);
    }
  }

  lemma {:induction false} SplitWithoutSeparator(s: string, sp: Splitter)
    requires NoSeparator(s, sp)
    ensures SplitAt(s, sp) == [s]
    decreases |s|
  {
    if s != [] {
      assert NoSeparator(s[1..], sp) by {
        assert forall j :: 0 <= j < |s[1..]| ==> s[1..][j] == s[j + 1];
      }
      SplitWithoutSeparator(s[1..], sp);
      assert !sp.Splits(s[0]);
      assert [s[0]] + s[1..] == s;
    }
  }

  /** A field holding one clause without separators yields that clause,
      trimmed, as the single symptom. */
  lemma SingleClauseKept(input: string, sp: Splitter)
    requires NoSeparator(input, sp) && |Trim(input)| > 0
    ensures Tokenize(input, sp) == [Trim(input)]
  {
    SplitWithoutSeparator(input, sp);
    var trimmed := TrimAll([input]);
    assert trimmed == [Trim(input)];
    assert trimmed[1..] == [];
    assert NonEmpty(trimmed[1..]) == [];
  }

  /** As written, no symptom the page keeps can contain the letter n: any
      symptom spelt with an n is cut apart. */
  lemma NoTokenContainsN(input: string)
    ensures forall t :: t in Tokenize(input, AsWritten) ==> 'n' !in t
  {
    TokensAreClean(input, AsWritten);
  }

  /** "runny nose" as written becomes "ru", "y" and "ose". */
  lemma RunnyNoseAsWritten()
    ensures Tokenize("runny nose", AsWritten) == ["ru", "y", "ose"]
  {
    RunnyNosePieces();
    RunnyNoseTrimmed();
    RunnyNoseFiltered();
  }

  lemma YNosePieces()
    ensures SplitAt("y nose", AsWritten) == ["y ", "ose"]
  {
    assert SplitAt("ose", AsWritten) == ["ose"] by {
      SplitWithoutSeparator("ose", AsWritten);
    }
    assert SplitAt("nose", AsWritten) == ["", "ose"] by {
      assert "nose"[1..] == "ose";
    }
    assert SplitAt(" nose", AsWritten) == [" ", "ose"] by {
      assert " nose"[1..] == "nose";
      var rest := SplitAt("nose", AsWritten);
      assert rest == ["", "ose"];
      assert [' '] + rest[0] == " ";
      assert rest[1..] == ["ose"];
    }
    assert "y nose"[1..] == " nose";
    var rest := SplitAt(" nose", AsWritten);
    assert ['y'] + rest[0] == "y ";
    assert rest[1..] == ["ose"];
  }

  lemma RunnyNosePieces()
    ensures SplitAt("runny nose", AsWritten) == ["ru", "", "y ", "ose"]
  {
    YNosePieces();
    assert SplitAt("ny nose", AsWritten) == ["", "y ", "ose"] by {
      assert "ny nose"[1..] == "y nose";
    }
    assert SplitAt("nny nose", AsWritten) == ["", "", "y ", "ose"] by {
      assert "nny nose"[1..] == "ny nose";
    }
    assert SplitAt("unny nose", AsWritten) == ["u", "", "y ", "ose"] by {
      assert "unny nose"[1..] == "nny nose";
      var rest := SplitAt("nny nose", AsWritten);
      assert ['u'] + rest[0] == "u";
      assert rest[1..] == ["", "y ", "ose"];
    }
    assert "runny nose"[1..] == "unny nose";
    var rest := SplitAt("unny nose", AsWritten);
    assert ['r'] + rest[0] == "ru";
    assert rest[1..] == ["", "y ", "ose"];
  }

  lemma RunnyNoseTrimmed()
    ensures TrimAll(["ru", "", "y ", "ose"]) == ["ru", "", "y", "ose"]
  {
    TrimStartOfTrimmed("ru");
    TrimEndOfTrimmed("ru");
    TrimStartOfTrimmed("ose");
    TrimEndOfTrimmed("ose");
    assert Trim("y ") == "y";
  }

  lemma RunnyNoseFiltered()
    ensures NonEmpty(["ru", "", "y", "ose"]) == ["ru", "y", "ose"]
  {
    KeepFirst("ose", []);
    KeepFirst("y", ["ose"]);
    DropEmptyFirst(["y", "ose"]);
    KeepFirst("ru", ["", "y", "ose"]);
  }

  lemma KeepFirst(x: string, rest: seq<string>)
    requires |x| > 0
    ensures NonEmpty([x] + rest) == [x] + NonEmpty(rest)
  {
    assert ([x] + rest)[1..] == rest;
  }

  lemma DropEmptyFirst(rest: seq<string>)
    ensures NonEmpty([""] + rest) == NonEmpty(rest)
  {
    assert ([""] + rest)[1..] == rest;
  }

  /** The token "y" lies inside "difficulty breathing", so the high-risk test
      of the second generation fires on a runny nose typed as written. */
  lemma RunnyNoseIsHighRisk()
    ensures TriageV2.HasHighRisk(Tokenize("runny nose", AsWritten))
  {
    assert "y" in Tokenize("runny nose", AsWritten) by {
      RunnyNoseAsWritten();
    }
    YIsHighRisk(Tokenize("runny nose", AsWritten));
  }

  /** Any symptom list holding the token "y" is high risk. */
  lemma YIsHighRisk(tokens: seq<string>)
    requires "y" in tokens
    ensures TriageV2.HasHighRisk(tokens)
  {
    var i :| 0 <= i < |tokens| && tokens[i] == "y";
    var risk := TriageV2.HighRiskSymptoms[2];
    assert Contains(Lower(risk), Lower(tokens[i])) by {
      assert Lower(tokens[i]) == "y";
      assert Lower(risk)[9..10] == "y";
      ContainsAt(Lower(risk), "y", 9);
    }
    assert TriageV2.HighRiskMatch(tokens[i], risk);
  }

  /** With the intended separators the same field is one symptom. */
  lemma RunnyNoseIntended()
    ensures Tokenize("runny nose", Intended) == ["runny nose"]
  {
    assert Trim("runny nose") == "runny nose" by {
      TrimStartOfTrimmed("runny nose");
      TrimEndOfTrimmed("runny nose");
    }
    SingleClauseKept("runny nose", Intended);
  }
}
