/** The line filter the ingestion script applies to the text it extracts
    from the documentation page before chunking it: split on '\n', keep the
    lines whose `strip()` is non-empty, join the kept lines with '\n'. */
module Ingest {
  import opened PyStr

  /** `b` contains the elements of `a` in the same relative order. */
  predicate IsSubsequence(a: seq<string>, b: seq<string>)
    decreases |b|
  {
    a == [] || (b != [] && ((a[0] == b[0] && IsSubsequence(a[1..], b[1..])) || IsSubsequence(a, b[1..])))
  }

  /** The list comprehension `[line for line in lines if line.strip()]`: the
      result keeps every line with content, untouched and in order, and drops
      every blank one. */
  function KeepContentLines(lines: seq<string>): (kept: seq<string>)
    ensures forall k :: 0 <= k < |kept| ==> HasContent(kept[k])
    ensures forall x :: multiset(kept)[x] == if HasContent(x) then multiset(lines)[x] else 0
    ensures IsSubsequence(kept, lines)
  {
    if lines == [] then []
    else
      var rest := KeepContentLines(lines[1..]);
      assert lines == [lines[0]] + lines[1..];
      if HasContent(lines[0]) then [lines[0]] + rest else rest
  }


  /** The text has no empty line: it does not start or end with '\n' and
      never holds "\n\n". */
  predicate NoEmptyLine(s: string) {
    (s != [] ==> s[0] != '\n' && s[|s| - 1] != '\n')
    && forall i :: 0 < i < |s| ==> s[i - 1] != '\n' || s[i] != '\n'
  }

  lemma {:induction false} KeptLinesAreLines(lines: seq<string>, x: string)
    requires x in KeepContentLines(lines)
    ensures x in lines && HasContent(x)
  {
    var kept := KeepContentLines(lines);
    assert multiset(kept)[x] > 0;
  }

  lemma ContentIsNonEmpty(x: string)
    requires HasContent(x)
    ensures x != []
  {
  }

  /** Joining non-empty pieces without '\n' by '\n' leaves no empty line. */
  lemma {:induction false} JoinHasNoEmptyLine(parts: seq<string>)
    requires forall k :: 0 <= k < |parts| ==> parts[k] != [] && '\n' !in parts[k]
    ensures NoEmptyLine(Join("\n", parts))
    ensures parts != [] ==> Join("\n", parts) != []
  {
    if |parts| > 1 {
      var p, rest := parts[0], Join("\n", parts[1..]);
      JoinHasNoEmptyLine(parts[1..]);
      var s := p + "\n" + rest;
      assert s == Join("\n", parts);
      forall i | 0 < i < |s|
        ensures s[i - 1] != '\n' || s[i] != '\n'
      {
        if i < |p| {
          assert s[i] == p[i];
        } else if i == |p| {
          assert s[i - 1] == p[|p| - 1];
        } else if i == |p| + 1 {
          assert s[i] == rest[0];
        } else {
          assert s[i - 1] == rest[i - 1 - |p| - 1] && s[i] == rest[i - |p| - 1];
        }
      }
      assert s[0] == p[0] && s[|s| - 1] == rest[|rest| - 1];
    }
  }

  /** The filter drops everything exactly when every line is blank. */
  lemma {:induction false} KeepNothingIffAllBlank(lines: seq<string>)
    ensures KeepContentLines(lines) == [] <==> forall k :: 0 <= k < |lines| ==> !HasContent(lines[k])
  {
    var kept := KeepContentLines(lines);
    if kept == [] {
      forall k | 0 <= k < |lines|
        ensures !HasContent(lines[k])
      {
        assert multiset(lines)[lines[k]] > 0;
        assert multiset(kept)[lines[k]] == 0;
      }
    } else {
      KeptLinesAreLines(lines, kept[0]);
    }
  }

  /** The pieces kept by the filter are non-empty and hold no '\n'. */
  lemma KeptPiecesAreLines(text: string)
    ensures var kept := KeepContentLines(Split(text, '\n'));
      forall k :: 0 <= k < |kept| ==> kept[k] != [] && '\n' !in kept[k]
  {
    var kept := KeepContentLines(Split(text, '\n'));
    forall k | 0 <= k < |kept|
      ensures kept[k] != [] && '\n' !in kept[k]
    {
      KeptLinesAreLines(Split(text, '\n'), kept[k]);
      ContentIsNonEmpty(kept[k]);
    }
  }

  /** `"\n".join([line for line in text.split('\n') if line.strip()])`: the
      cleaned text has no empty line, and it is empty exactly when every line
      of the input is blank (the empty input included). */
  function CleanText(text: string): (cleaned: string)
    ensures NoEmptyLine(cleaned)
    ensures cleaned == [] ==> forall k :: 0 <= k < |Split(text, '\n')| ==> !HasContent(Split(text, '\n')[k])
    ensures cleaned != [] ==> exists k :: 0 <= k < |Split(text, '\n')| && HasContent(Split(text, '\n')[k])
  {
    var kept := KeepContentLines(Split(text, '\n'));
    KeptPiecesAreLines(text);
    JoinHasNoEmptyLine(kept);
    KeepNothingIffAllBlank(Split(text, '\n'));
    Join("\n", kept)
  }

  /** The lines of a non-empty cleaned text are exactly the kept lines. */
  lemma CleanTextLines(text: string)
    ensures CleanText(text) != [] ==> Split(CleanText(text), '\n') == KeepContentLines(Split(text, '\n'))
  {
    var kept := KeepContentLines(Split(text, '\n'));
    if kept != [] {
      KeptPiecesAreLines(text);
      assert "\n" == ['\n'];
      SplitJoin(kept, '\n');
    }
  }

  /** Every line of a non-empty cleaned text has a non-whitespace character. */
  lemma CleanedLinesHaveContent(text: string)
    ensures var cleaned := CleanText(text);
      cleaned != [] ==> forall k :: 0 <= k < |Split(cleaned, '\n')| ==> HasContent(Split(cleaned, '\n')[k])
  {
    CleanTextLines(text);
  }

  /** A sequence whose every line has content passes the filter unchanged. */
  lemma {:induction false} KeepAllContentLines(lines: seq<string>)
    requires forall k :: 0 <= k < |lines| ==> HasContent(lines[k])
    ensures KeepContentLines(lines) == lines
  {
    if lines != [] {
      KeepAllContentLines(lines[1..]);
      assert HasContent(lines[0]);
      assert KeepContentLines(lines) == [lines[0]] + KeepContentLines(lines[1..]);
      assert lines == [lines[0]] + lines[1..];
    }
  }

  /** Cleaning an already cleaned text changes nothing. */
  lemma CleanTextIdempotent(text: string)
    ensures CleanText(CleanText(text)) == CleanText(text)
  {
    var cleaned := CleanText(text);
    CleanTextLines(text);
    CleanedLinesHaveContent(text);
    if cleaned == [] {
      assert Split(cleaned, '\n') == [""];
      assert !HasContent("");
    } else {
      KeepAllContentLines(Split(cleaned, '\n'));
      JoinSplit(cleaned, '\n');
      assert "\n" == ['\n'];
    }
  }
}
