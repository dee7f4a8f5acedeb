/** What a normalised text looks like, and that normalising it again changes nothing. */
module TextNormalForm {
  import opened TextNormalization

  /** The characters a pass leaves alone. */
  predicate Plain(c: char) {
    c != '\r' && c != '\t' && !IsControl(c)
  }

  ghost predicate AllPlain(s: string) {
    forall i :: 0 <= i < |s| ==> Plain(s[i])
  }

  ghost predicate NoCr(s: string) {
    forall i :: 0 <= i < |s| ==> s[i] != '\r'
  }

  ghost predicate NoControl(s: string) {
    forall i :: 0 <= i < |s| ==> s[i] != '\r' && !IsControl(s[i])
  }

  /** Nowhere `a` directly before `b`. */
  ghost predicate Never(s: string, a: char, b: char) {
    forall i :: 0 <= i < |s| - 1 ==> !(s[i] == a && s[i + 1] == b)
  }

  ghost predicate NoThreeNewlines(s: string) {
    forall i :: 0 <= i < |s| - 2 ==> !(s[i] == '\n' && s[i + 1] == '\n' && s[i + 2] == '\n')
  }

  /** Only plain characters, no two spaces in a row, no space next to a newline, never three newlines in a row. */
  ghost predicate Tight(s: string) {
    AllPlain(s) && Never(s, ' ', ' ') && Never(s, ' ', '\n') && Never(s, '\n', ' ') && NoThreeNewlines(s)
  }

  ghost predicate NormalForm(s: string) {
    Tight(s) && Trimmed(s)
  }

  // ---------- what each pass establishes ----------

  lemma {:induction false} CrIsGone(s: string)
    ensures NoCr(ReplaceCr(s))
  {
    if s != [] {
      CrIsGone(s[1..]);
      var r := ReplaceCr(s);
      assert forall i :: 0 < i < |r| ==> r[i] == ReplaceCr(s[1..])[i - 1];
    }
  }

  lemma {:induction false} ControlsAreGone(s: string)
    requires NoCr(s)
    ensures NoControl(ReplaceControls(s))
  {
    if s != [] {
      assert NoCr(s[1..]);
      ControlsAreGone(s[1..]);
      var r := ReplaceControls(s);
      assert forall i :: 0 < i < |r| ==> r[i] == ReplaceControls(s[1..])[i - 1];
    }
  }

  lemma {:induction false} DropBlanksEnds(s: string)
    ensures DropBlanks(s) != [] ==> !IsBlank(DropBlanks(s)[0])
    ensures NoControl(s) ==> NoControl(DropBlanks(s))
  {
    if s != [] && IsBlank(s[0]) { DropBlanksEnds(s[1..]); }
  }

  ghost predicate StartsWith(s: string, c: char) {
    s != [] && s[0] == c
  }

  /** Putting a character in front of a string makes one new pair. */
  lemma InFront(c: char, s: string, a: char, b: char)
    requires Never(s, a, b) && !(c == a && StartsWith(s, b))
    ensures Never([c] + s, a, b)
  {
    var t := [c] + s;
    forall i | 0 <= i < |t| - 1 ensures !(t[i] == a && t[i + 1] == b) {
      if i > 0 { assert t[i] == s[i - 1] && t[i + 1] == s[i]; }
    }
  }

  lemma {:induction false} BlanksAreCollapsed(s: string)
    requires NoControl(s)
    ensures var r := CollapseBlanks(s);
            AllPlain(r) && Never(r, ' ', ' ') && (StartsWith(r, ' ') ==> s != [] && IsBlank(s[0]))
    decreases |s|
  {
    if s != [] {
      assert NoControl(s[1..]);
      if IsBlank(s[0]) {
        DropBlanksEnds(s[1..]);
        var rest := CollapseBlanks(DropBlanks(s[1..]));
        BlanksAreCollapsed(DropBlanks(s[1..]));
        InFront(' ', rest, ' ', ' ');
      } else {
        var rest := CollapseBlanks(s[1..]);
        BlanksAreCollapsed(s[1..]);
        InFront(s[0], rest, ' ', ' ');
      }
    }
  }

  /** The part of `Tight` that holds before newlines are limited. */
  ghost predicate Loose(s: string) {
    AllPlain(s) && Never(s, ' ', ' ') && Never(s, ' ', '\n') && Never(s, '\n', ' ')
  }

  lemma TailOfSingle(s: string)
    requires AllPlain(s) && Never(s, ' ', ' ') && s != []
    ensures AllPlain(s[1..]) && Never(s[1..], ' ', ' ')
    ensures StartsWith(s, ' ') ==> DropSpaces(s) == s[1..]
    ensures !StartsWith(s, ' ') ==> DropSpaces(s) == s
  {
    var t := s[1..];
    forall i | 0 <= i < |t| - 1 ensures !(t[i] == ' ' && t[i + 1] == ' ') {
      assert t[i] == s[i + 1] && t[i + 1] == s[i + 2];
    }
    if s[0] == ' ' && |s| > 1 { assert s[1] != ' '; }
  }

  lemma InFrontLoose(c: char, s: string)
    requires Loose(s) && Plain(c)
    requires c == ' ' ==> !StartsWith(s, ' ') && !StartsWith(s, '\n')
    requires c == '\n' ==> !StartsWith(s, ' ')
    ensures Loose([c] + s)
  {
    InFront(c, s, ' ', ' ');
    InFront(c, s, ' ', '\n');
    InFront(c, s, '\n', ' ');
  }

  /** Trimming around newlines turns a text with single spaces into a loose one; its first character is the first of
      the text, or the newline behind a leading space. */
  lemma {:induction false} NewlinesAreTrimmed(s: string)
    requires AllPlain(s) && Never(s, ' ', ' ')
    ensures Loose(TrimAroundNewlines(s))
    ensures var r := TrimAroundNewlines(s);
            (StartsWith(r, ' ') ==> StartsWith(s, ' ')) && (s != [] && s[0] != ' ' ==> r != [] && r[0] == s[0])
            && (StartsWith(s, ' ') && !StartsWith(s[1..], '\n') ==> r == [' '] + TrimAroundNewlines(s[1..]))
    decreases |s|
  {
    if s != [] {
      var rest := DropSpaces(s);
      TailOfSingle(s);
      if rest != [] && rest[0] == '\n' {
        TailOfSingle(rest);
        var after := rest[1..];
        var clean := DropSpaces(after);
        if after != [] { TailOfSingle(after); }
        NewlinesAreTrimmed(clean);
        assert !StartsWith(clean, ' ') by {
          if after != [] && after[0] == ' ' && |after| > 1 { assert after[1] != ' '; }
        }
        InFrontLoose('\n', TrimAroundNewlines(clean));
      } else {
        NewlinesAreTrimmed(s[1..]);
        var r := TrimAroundNewlines(s[1..]);
        if s[0] == ' ' {
          assert |s| > 1 ==> s[1] != ' ' && s[1] != '\n';
          assert !StartsWith(r, ' ') && !StartsWith(r, '\n');
        } else if s[0] == '\n' {
          assert false;
        }
        InFrontLoose(s[0], r);
      }
    }
  }

  lemma {:induction false} DropNewlinesEnds(s: string)
    requires Loose(s)
    ensures Loose(DropNewlines(s)) && !StartsWith(DropNewlines(s), '\n')
    ensures StartsWith(DropNewlines(s), ' ') ==> StartsWith(s, ' ')
  {
    if s != [] && s[0] == '\n' {
      TailOfLoose(s);
      DropNewlinesEnds(s[1..]);
      assert !StartsWith(s[1..], ' ') by { if |s| > 1 { assert !(s[0] == '\n' && s[1] == ' '); } }
    }
  }

  lemma TailOfLoose(s: string)
    requires Loose(s) && s != []
    ensures Loose(s[1..])
  {
    var t := s[1..];
    forall i | 0 <= i < |t| - 1
      ensures !(t[i] == ' ' && t[i + 1] == ' ')
      ensures !(t[i] == ' ' && t[i + 1] == '\n') && !(t[i] == '\n' && t[i + 1] == ' ')
    {
      assert t[i] == s[i + 1] && t[i + 1] == s[i + 2];
    }
  }

  lemma InFrontTight(c: char, s: string)
    requires Tight(s) && Plain(c)
    requires c == ' ' ==> !StartsWith(s, ' ') && !StartsWith(s, '\n')
    requires c == '\n' ==> !StartsWith(s, ' ') && !(|s| >= 2 && s[0] == '\n' && s[1] == '\n')
    ensures Tight([c] + s)
  {
    InFrontLoose(c, s);
    var t := [c] + s;
    forall i | 0 <= i < |t| - 2 ensures !(t[i] == '\n' && t[i + 1] == '\n' && t[i + 2] == '\n') {
      assert t[i + 1] == s[i] && t[i + 2] == s[i + 1];
      if i > 0 { assert t[i] == s[i - 1]; }
    }
  }

  lemma {:induction false} NewlinesAreLimited(s: string)
    requires Loose(s)
    ensures Tight(LimitNewlines(s))
    ensures var r := LimitNewlines(s);
            (r == [] <==> s == []) && (s != [] ==> r[0] == s[0])
            && (|r| >= 2 && r[0] == '\n' && r[1] == '\n' ==> |s| >= 2 && s[0] == '\n' && s[1] == '\n')
    decreases |s|
  {
    if s != [] {
      if |s| >= 3 && s[..3] == "\n\n\n" {
        assert s[0] == s[..3][0] && s[1] == s[..3][1] && s[2] == s[..3][2];
        assert s[1..][1..][1..] == s[3..] && s[1..][1..] == s[2..];
        TailOfLoose(s);
        TailOfLoose(s[1..]);
        TailOfLoose(s[2..]);
        assert !StartsWith(s[3..], ' ') by { if |s| > 3 { assert !(s[2] == '\n' && s[3] == ' '); } }
        var rest := DropNewlines(s[3..]);
        DropNewlinesEnds(s[3..]);
        NewlinesAreLimited(rest);
        InFrontTight('\n', LimitNewlines(rest));
        InFrontTight('\n', ['\n'] + LimitNewlines(rest));
        assert ['\n'] + (['\n'] + LimitNewlines(rest)) == ['\n', '\n'] + LimitNewlines(rest);
      } else {
        TailOfLoose(s);
        NewlinesAreLimited(s[1..]);
        var r := LimitNewlines(s[1..]);
        if |s| > 1 {
          assert !(s[0] == ' ' && s[1] == ' ') && !(s[0] == ' ' && s[1] == '\n') && !(s[0] == '\n' && s[1] == ' ');
        }
        if |s| >= 3 {
          assert s[..3] == [s[0], s[1], s[2]];
          assert !(s[0] == '\n' && s[1] == '\n' && s[2] == '\n');
          assert s[1..][0] == s[1] && s[1..][1] == s[2];
        }
        InFrontTight(s[0], r);
      }
    }
  }

  lemma PartOfTight(s: string, i: nat, j: nat)
    requires Tight(s) && i <= j <= |s|
    ensures Tight(s[i..j])
  {
    var t := s[i..j];
    forall k | 0 <= k < |t| - 1
      ensures !(t[k] == ' ' && t[k + 1] == ' ')
      ensures !(t[k] == ' ' && t[k + 1] == '\n') && !(t[k] == '\n' && t[k + 1] == ' ')
    {
      assert t[k] == s[i + k] && t[k + 1] == s[i + k + 1];
    }
    forall k | 0 <= k < |t| - 2 ensures !(t[k] == '\n' && t[k + 1] == '\n' && t[k + 2] == '\n') {
      assert t[k] == s[i + k] && t[k + 1] == s[i + k + 1] && t[k + 2] == s[i + k + 2];
    }
  }

  lemma StripIsTight(s: string)
    requires Tight(s)
    ensures NormalForm(Strip(s))
  {
    StripKeeps(s);
    LStripKeeps(s);
    RStripKeeps(LStrip(s));
    var l := LStrip(s);
    PartOfTight(s, |s| - |l|, |s|);
    assert s[|s| - |l|..|s|] == l;
    PartOfTight(l, 0, |Strip(s)|);
    assert l[0..|Strip(s)|] == Strip(s);
  }

  /** Every text is normalised to the normal form. */
  lemma NormalizedIsNormal(text: string)
    ensures NormalForm(Normalized(text))
  {
    var a := ReplaceCr(ReplaceCrLf(text));
    CrIsGone(ReplaceCrLf(text));
    ControlsAreGone(a);
    var b := ReplaceControls(a);
    BlanksAreCollapsed(b);
    var c := CollapseBlanks(b);
    NewlinesAreTrimmed(c);
    var d := TrimAroundNewlines(c);
    NewlinesAreLimited(d);
    StripIsTight(LimitNewlines(d));
  }

  // ---------- the passes leave the normal form alone ----------

  lemma TailOfTight(s: string)
    requires Tight(s) && s != []
    ensures Tight(s[1..])
  {
    PartOfTight(s, 1, |s|);
    assert s[1..|s|] == s[1..];
  }

  lemma {:induction false} EarlyPassesKeep(s: string)
    requires Tight(s)
    ensures ReplaceCrLf(s) == s && ReplaceCr(s) == s && ReplaceControls(s) == s
  {
    if s != [] {
      TailOfTight(s);
      EarlyPassesKeep(s[1..]);
      assert Plain(s[0]);
      assert [s[0]] + s[1..] == s;
    }
  }

  lemma {:induction false} CollapseKeepsTight(s: string)
    requires Tight(s)
    ensures CollapseBlanks(s) == s
  {
    if s != [] {
      TailOfTight(s);
      CollapseKeepsTight(s[1..]);
      assert Plain(s[0]);
      assert [s[0]] + s[1..] == s;
      if s[0] == ' ' && |s| > 1 {
        assert s[1] != ' ' && Plain(s[1]);
        assert DropBlanks(s[1..]) == s[1..];
      }
    }
  }

  lemma {:induction false} TrimKeepsTight(s: string)
    requires Tight(s)
    ensures TrimAroundNewlines(s) == s
    decreases |s|
  {
    if s != [] {
      TailOfTight(s);
      TrimKeepsTight(s[1..]);
      TailOfSingle(s);
      assert [s[0]] + s[1..] == s;
      if |s| > 1 { assert !(s[0] == ' ' && s[1] == '\n') && !(s[0] == '\n' && s[1] == ' '); }
      if s[0] == '\n' {
        assert DropSpaces(s[1..]) == s[1..];
      }
    }
  }

  lemma {:induction false} LimitKeepsTight(s: string)
    requires Tight(s)
    ensures LimitNewlines(s) == s
    decreases |s|
  {
    if s != [] {
      TailOfTight(s);
      LimitKeepsTight(s[1..]);
      assert [s[0]] + s[1..] == s;
      if |s| >= 3 {
        assert s[..3][0] == s[0] && s[..3][1] == s[1] && s[..3][2] == s[2];
        assert !(s[0] == '\n' && s[1] == '\n' && s[2] == '\n');
      }
    }
  }

  /** The normal forms are exactly the texts that normalising leaves alone; so normalising twice is normalising
      once. */
  lemma NormalFormsAreTheFixedPoints(s: string)
    ensures Normalized(s) == s <==> NormalForm(s)
    ensures Normalized(Normalized(s)) == Normalized(s)
  {
    NormalizedIsNormal(s);
    if NormalForm(s) { NormalFormIsFixed(s); }
    NormalFormIsFixed(Normalized(s));
  }

  lemma NormalFormIsFixed(s: string)
    requires NormalForm(s)
    ensures Normalized(s) == s
  {
    EarlyPassesKeep(s);
    CollapseKeepsTight(s);
    TrimKeepsTight(s);
    LimitKeepsTight(s);
    StripTrimmed(s);
  }

  // ---------- line ends and blank lines ----------

  /** The text with its lines ended differently. */
  function WithBreaks(s: string, mark: string): string {
    if s == [] then [] else (if s[0] == '\n' then mark else [s[0]]) + WithBreaks(s[1..], mark)
  }

  lemma {:induction false} CrLfIsUndone(s: string)
    requires NoCr(s)
    ensures ReplaceCrLf(WithBreaks(s, "\r\n")) == s
  {
    if s != [] {
      assert NoCr(s[1..]);
      CrLfIsUndone(s[1..]);
      var rest := WithBreaks(s[1..], "\r\n");
      if s[0] == '\n' {
        assert ("\r\n" + rest)[2..] == rest;
      } else {
        assert s[0] != '\r';
        assert ([s[0]] + rest)[1..] == rest;
      }
    }
  }

  lemma {:induction false} CrIsUndone(s: string)
    requires NoCr(s)
    ensures ReplaceCr(s) == s && ReplaceCr(ReplaceCrLf(WithBreaks(s, "\r"))) == s
  {
    if s != [] {
      assert s[0] != '\r' && NoCr(s[1..]);
      CrIsUndone(s[1..]);
      var rest := WithBreaks(s[1..], "\r");
      NoLfLeft(s[1..]);
      var c := if s[0] == '\n' then '\r' else s[0];
      assert WithBreaks(s, "\r") == [c] + rest && ([c] + rest)[1..] == rest;
      assert ReplaceCrLf([c] + rest) == [c] + ReplaceCrLf(rest);
      assert ([c] + ReplaceCrLf(rest))[1..] == ReplaceCrLf(rest);
    }
  }

  lemma NoLfLeft(s: string)
    ensures var r := WithBreaks(s, "\r"); r != [] ==> r[0] != '\n'
  {
  }

  /** How the lines of a text end makes no difference. */
  lemma LineEndsMakeNoDifference(s: string)
    requires NoCr(s)
    ensures Normalized(WithBreaks(s, "\r\n")) == Normalized(s) && Normalized(WithBreaks(s, "\r")) == Normalized(s)
  {
    CrLfIsUndone(s);
    CrIsUndone(s);
    NoCrLfToReplace(s);
  }

  lemma {:induction false} NoCrLfToReplace(s: string)
    requires NoCr(s)
    ensures ReplaceCrLf(s) == s
  {
    if s != [] {
      assert s[0] != '\r' && NoCr(s[1..]);
      NoCrLfToReplace(s[1..]);
    }
  }

  lemma LimitStartsAlike(s: string)
    ensures (LimitNewlines(s) == [] <==> s == []) && (s != [] ==> LimitNewlines(s)[0] == s[0])
  {
  }

  lemma {:induction false} NewlinesAreDropped(s: string)
    ensures var r := DropNewlines(s); r == [] || r[0] != '\n'
  {
    if s != [] && s[0] == '\n' { NewlinesAreDropped(s[1..]); }
  }

  /** Any number of blank lines divides a text like one. */
  lemma {:induction false} BlankLinesDivideAlike(s: string)
    ensures Paragraphs(LimitNewlines(s)) == Paragraphs(s)
    decreases |s|
  {
    if s != [] {
      if |s| >= 3 && s[..3] == "\n\n\n" {
        ManyNewlines(s);
      } else if |s| >= 2 && s[0] == '\n' && s[1] == '\n' {
        TwoNewlines(s);
      } else {
        BlankLinesDivideAlike(s[1..]);
        LimitStartsAlike(s[1..]);
        assert ([s[0]] + LimitNewlines(s[1..]))[1..] == LimitNewlines(s[1..]);
      }
    }
  }

  lemma {:induction false} ManyNewlines(s: string)
    requires |s| >= 3 && s[..3] == "\n\n\n"
    ensures Paragraphs(LimitNewlines(s)) == Paragraphs(s)
    decreases |s|, 0
  {
    var r := DropNewlines(s[3..]);
    assert s[0] == s[..3][0] && s[1] == s[..3][1] && s[2] == s[..3][2];
    assert DropNewlines(s[2..]) == r by { assert s[2..][1..] == s[3..]; }
    BlankLinesDivideAlike(r);
    NewlinesAreDropped(s[3..]);
    LimitStartsAlike(r);
    var limited := ['\n', '\n'] + LimitNewlines(r);
    assert limited[2..] == LimitNewlines(r);
  }

  lemma {:induction false} TwoNewlines(s: string)
    requires |s| >= 2 && s[0] == '\n' && s[1] == '\n' && (|s| >= 3 ==> s[2] != '\n')
    ensures Paragraphs(LimitNewlines(s)) == Paragraphs(s)
    decreases |s|, 0
  {
    var r := s[2..];
    BlankLinesDivideAlike(r);
    LimitStartsAlike(r);
    assert s[1..][1..] == r;
    assert |s| >= 3 ==> s[..3][2] == s[2];
    assert |s[1..]| >= 3 ==> s[1..][..3][1] == s[2];
    assert LimitNewlines(s[1..]) == ['\n'] + LimitNewlines(r);
    var limited := ['\n'] + (['\n'] + LimitNewlines(r));
    assert LimitNewlines(s) == limited && limited[2..] == LimitNewlines(r);
  }
}
