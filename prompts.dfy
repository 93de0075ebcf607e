/**
 The texts `StoryGenApp` derives from a story title: the scene prompts, the
 preview entries and log lines that accompany them, and the content of the
 exported prompt file.
 */
module Prompts {
  import opened Text

  const SceneWord := "Scene "
  const Illustration := ": Illustration of "
  // Spelled in pieces so that the verifier can look at its characters.
  const StyleTail := ", consistent " + "character style, " + "cinematic, " + "colorful"

  /** The prompt for scene `k` (1-based) of a story called `title`. */
  function ScenePrompt(title: string, k: nat): string
  {
    SceneWord + NatToString(k) + Illustration + title + StyleTail
  }

  /** The batch `start_processing` builds: scenes 1 to `n`, in order. */
  function BuildPrompts(title: string, n: nat): seq<string>
  {
    seq(n, j requires 0 <= j => ScenePrompt(title, j + 1))
  }

  /** Offset at which the title starts inside the prompt of scene `k`. */
  function TitleOffset(k: nat): nat
  {
    |SceneWord| + |NatToString(k)| + |Illustration|
  }

  /** Every prompt holds the title verbatim, right after "Scene k: Illustration of ". */
  lemma PromptContainsTitle(title: string, k: nat)
    ensures var p := ScenePrompt(title, k);
      && TitleOffset(k) + |title| <= |p|
      && p[..|SceneWord|] == SceneWord
      && p[TitleOffset(k)..TitleOffset(k) + |title|] == title
  {
  }

  /** A prompt determines both its scene number and its title. */
  lemma ScenePromptInjective(t1: string, k1: nat, t2: string, k2: nat)
    ensures ScenePrompt(t1, k1) == ScenePrompt(t2, k2) <==> t1 == t2 && k1 == k2
  {
    if ScenePrompt(t1, k1) == ScenePrompt(t2, k2) {
      var d1, d2 := NatToString(k1), NatToString(k2);
      var x1 := Illustration + t1 + StyleTail;
      var x2 := Illustration + t2 + StyleTail;
      assert d1 + x1 == d2 + x2 by {
        Regroup(SceneWord, d1, Illustration, t1, StyleTail);
        Regroup(SceneWord, d2, Illustration, t2, StyleTail);
        DropPrefix(SceneWord, d1 + x1);
        DropPrefix(SceneWord, d2 + x2);
      }
      assert x1[0] == ':' && x2[0] == ':';
      DigitsPrefixUnique(d1, x1, d2, x2);
      NatToStringInjective(k1, k2);
      assert Illustration + t1 == Illustration + t2 by {
        DropSuffix(Illustration + t1, StyleTail);
        DropSuffix(Illustration + t2, StyleTail);
      }
      DropPrefix(Illustration, t1);
      DropPrefix(Illustration, t2);
    }
  }

  lemma Regroup(a: string, b: string, c: string, d: string, e: string)
    ensures a + b + c + d + e == a + (b + (c + d + e))
  {
  }

  lemma DropPrefix(a: string, b: string)
    ensures (a + b)[|a|..] == b
  {
  }

  lemma DropSuffix(a: string, b: string)
    ensures (a + b)[..|a|] == a
  {
  }

  /** The batch has exactly `n` prompts; entry `j` is scene `j + 1`, carries
      the title, and no two entries are equal. */
  lemma BuildPromptsSpec(title: string, n: nat)
    ensures |BuildPrompts(title, n)| == n
    ensures forall j :: 0 <= j < n ==> BuildPrompts(title, n)[j] == ScenePrompt(title, j + 1)
    ensures forall i, j :: 0 <= i < j < n ==> BuildPrompts(title, n)[i] != BuildPrompts(title, n)[j]
  {
    var ps := BuildPrompts(title, n);
    forall i, j | 0 <= i < j < n
      ensures ps[i] != ps[j]
    {
      ScenePromptInjective(title, i + 1, title, j + 1);
    }
  }

  /** No prompt of the batch contains a newline unless the title does. */
  lemma BuildPromptsNoNewline(title: string, n: nat)
    requires '\n' !in title
    ensures forall j :: 0 <= j < |BuildPrompts(title, n)| ==> '\n' !in BuildPrompts(title, n)[j]
  {
  }

  // ---------------------------------------------------------------------
  // Preview entries and progress log lines

  /** The preview entry for the `k`-th prompt. */
  function PreviewLine(k: nat, prompt: string): string
  {
    "Prompt " + NatToString(k) + ": " + prompt
  }

  /** The preview list: one entry per prompt, numbered from 1. */
  function PreviewLines(ps: seq<string>): seq<string>
  {
    seq(|ps|, j requires 0 <= j < |ps| => PreviewLine(j + 1, ps[j]))
  }

  /** Preview entry `j` is numbered `j + 1` and ends with prompt `j` verbatim. */
  lemma PreviewLinesSpec(ps: seq<string>)
    ensures |PreviewLines(ps)| == |ps|
    ensures forall j :: 0 <= j < |ps| ==>
      var line := PreviewLines(ps)[j];
      && |ps[j]| <= |line|
      && line[..|line| - |ps[j]|] == "Prompt " + NatToString(j + 1) + ": "
      && line[|line| - |ps[j]|..] == ps[j]
    ensures forall i, j :: 0 <= i < j < |ps| ==> PreviewLines(ps)[i] != PreviewLines(ps)[j]
  {
    forall i, j | 0 <= i < j < |ps|
      ensures PreviewLines(ps)[i] != PreviewLines(ps)[j]
    {
      PreviewLineInjective(i + 1, ps[i], j + 1, ps[j]);
    }
  }

  /** A preview entry determines its number: entries with different numbers differ. */
  lemma PreviewLineInjective(k1: nat, p1: string, k2: nat, p2: string)
    ensures PreviewLine(k1, p1) == PreviewLine(k2, p2) ==> k1 == k2
  {
    if PreviewLine(k1, p1) == PreviewLine(k2, p2) {
      var d1, d2 := NatToString(k1), NatToString(k2);
      var x1, x2 := ": " + p1, ": " + p2;
      assert d1 + x1 == d2 + x2 by {
        assert PreviewLine(k1, p1) == "Prompt " + (d1 + x1);
        assert PreviewLine(k2, p2) == "Prompt " + (d2 + x2);
        DropPrefix("Prompt ", d1 + x1);
        DropPrefix("Prompt ", d2 + x2);
      }
      assert x1[0] == ':' && x2[0] == ':';
      DigitsPrefixUnique(d1, x1, d2, x2);
      NatToStringInjective(k1, k2);
    }
  }

  /** The log line written while building the `k`-th prompt. */
  function GeneratedLine(k: nat): string
  {
    "Generated prompt " + NatToString(k)
  }

  /** The log lines of one batch: "Generated prompt 1" up to "Generated prompt n". */
  function GeneratedLines(n: nat): seq<string>
  {
    seq(n, j requires 0 <= j => GeneratedLine(j + 1))
  }

  /** There are `n` progress lines, numbered 1 to `n` in ascending order, all different. */
  lemma GeneratedLinesSpec(n: nat)
    ensures |GeneratedLines(n)| == n
    ensures forall j :: 0 <= j < n ==>
      && |"Generated prompt "| <= |GeneratedLines(n)[j]|
      && GeneratedLines(n)[j][..|"Generated prompt "|] == "Generated prompt "
      && GeneratedLines(n)[j][|"Generated prompt "|..] == NatToString(j + 1)
    ensures forall i, j :: 0 <= i < j < n ==> GeneratedLines(n)[i] != GeneratedLines(n)[j]
  {
    var g := GeneratedLines(n);
    forall i, j | 0 <= i < j < n
      ensures g[i] != g[j]
    {
      assert g[i][|"Generated prompt "|..] == NatToString(i + 1);
      assert g[j][|"Generated prompt "|..] == NatToString(j + 1);
      NatToStringInjective(i + 1, j + 1);
    }
  }

  /** Building one more prompt extends the batch, its preview and its progress lines by one entry each. */
  lemma BuildStep(title: string, i: nat)
    ensures BuildPrompts(title, i + 1) == BuildPrompts(title, i) + [ScenePrompt(title, i + 1)]
    ensures PreviewLines(BuildPrompts(title, i + 1))
      == PreviewLines(BuildPrompts(title, i)) + [PreviewLine(i + 1, ScenePrompt(title, i + 1))]
    ensures GeneratedLines(i + 1) == GeneratedLines(i) + [GeneratedLine(i + 1)]
  {
  }

  // ---------------------------------------------------------------------
  // Export file content

  /** Each prompt followed by a newline, in order. */
  function ExportContent(ps: seq<string>): string
  {
    if ps == [] then "" else ps[0] + "\n" + ExportContent(ps[1..])
  }

  /** Writing one more prompt extends the content by that prompt and a newline. */
  lemma {:induction false} ExportContentAppend(ps: seq<string>, p: string)
    ensures ExportContent(ps + [p]) == ExportContent(ps) + p + "\n"
    decreases |ps|
  {
    if ps == [] {
      assert ps + [p] == [p];
      assert ExportContent([p]) == p + "\n" + ExportContent([]);
    } else {
      assert (ps + [p])[1..] == ps[1..] + [p];
      ExportContentAppend(ps[1..], p);
    }
  }

  /** Index of the first newline of `s` (|s| when there is none). */
  function LineEnd(s: string): (n: nat)
    ensures n <= |s|
    ensures '\n' !in s[..n]
    ensures n < |s| ==> s[n] == '\n'
    decreases |s|
  {
    if s == [] || s[0] == '\n' then 0
    else
      var n := 1 + LineEnd(s[1..]);
      assert s[..n] == [s[0]] + s[1..][..n - 1];
      n
  }

  /** The lines of a text file: each ends at a newline, and a last piece
      without a newline is a line too. */
  function Lines(s: string): seq<string>
    decreases |s|
  {
    if s == [] then []
    else
      var k := LineEnd(s);
      [s[..k]] + (if k < |s| then Lines(s[k + 1..]) else [])
  }

  /** The line preceding the first newline comes off the front. */
  lemma LinesCons(p: string, rest: string)
    requires '\n' !in p
    ensures Lines(p + "\n" + rest) == [p] + Lines(rest)
  {
    var s := p + "\n" + rest;
    LineEndOf(p, rest);
    assert s[..|p|] == p;
    assert s[|p| + 1..] == rest;
  }

  lemma {:induction false} LineEndOf(p: string, rest: string)
    requires '\n' !in p
    ensures LineEnd(p + "\n" + rest) == |p|
    decreases |p|
  {
    if p == [] {
      assert (p + "\n" + rest)[0] == '\n';
    } else {
      assert (p + "\n" + rest)[0] == p[0];
      assert (p + "\n" + rest)[1..] == p[1..] + "\n" + rest;
      assert '\n' !in p[1..] by {
        assert forall m :: 0 <= m < |p[1..]| ==> p[1..][m] == p[m + 1];
      }
      LineEndOf(p[1..], rest);
    }
  }

  /** Reading the exported file back line by line gives exactly the prompts,
      in order, with no extra line, provided no prompt contains a newline. */
  lemma {:induction false} ExportRoundTrip(ps: seq<string>)
    requires forall j :: 0 <= j < |ps| ==> '\n' !in ps[j]
    ensures Lines(ExportContent(ps)) == ps
    decreases |ps|
  {
    if ps != [] {
      LinesCons(ps[0], ExportContent(ps[1..]));
      ExportRoundTrip(ps[1..]);
    }
  }

  /** The export of a whole batch reads back as that batch when the title has no newline. */
  lemma BatchExportRoundTrip(title: string, n: nat)
    requires '\n' !in title
    ensures Lines(ExportContent(BuildPrompts(title, n))) == BuildPrompts(title, n)
  {
    BuildPromptsNoNewline(title, n);
    ExportRoundTrip(BuildPrompts(title, n));
  }

  /** The file is empty exactly when there are no prompts, and otherwise ends with a newline. */
  lemma ExportContentShape(ps: seq<string>)
    ensures ExportContent(ps) == [] <==> ps == []
    ensures ps != [] ==> ExportContent(ps)[|ExportContent(ps)| - 1] == '\n'
  {
  }
}
