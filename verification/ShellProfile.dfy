/** The managed block in a shell profile (client/src-tauri/src/cli_tools.rs): adding it,
    renewing it, and leaving everything around it as it was.

    The proofs use of the two markers only what `Proper` says, and of the command only
    that it has no `#`; the last section is about the markers and commands themselves. */
module ShellProfile {
  import opened Wrappers
  import opened Occurrences

  // ---------- the first occurrence of a marker ----------

  /** No occurrence starts before `n`. */
  ghost predicate NoneBefore(s: string, marker: string, n: nat) {
    forall k: nat | k < n :: !At(s, marker, k)
  }

  function FindFrom(s: string, marker: string, i: nat): (r: Option<nat>)
    requires NoneBefore(s, marker, i)
    ensures r.Some? ==> At(s, marker, r.value) && NoneBefore(s, marker, r.value)
    ensures r.None? ==> Lacks(s, marker)
    decreases |s| - i
  {
    if i + |marker| > |s| then None
    else if At(s, marker, i) then Some(i)
    else FindFrom(s, marker, i + 1)
  }

  /** `split_once`: around the first occurrence. */
  function SplitOnce(s: string, marker: string): (r: Option<(string, string)>)
    ensures r.None? <==> Lacks(s, marker)
    ensures r.Some? ==> s == r.value.0 + marker + r.value.1 && NoneBefore(s, marker, |r.value.0|)
  {
    var i :- FindFrom(s, marker, 0);
    Some((s[..i], s[i + |marker|..]))
  }

  lemma SplitsAt(s: string, marker: string, before: string, after: string)
    requires s == before + marker + after && NoneBefore(s, marker, |before|)
    ensures SplitOnce(s, marker) == Some((before, after))
  {
    assert At(s, marker, |before|);
    var (b, a) := SplitOnce(s, marker).value;
    assert At(s, marker, |b|);
    assert |b| == |before|;
    assert before == s[..|before|] && b == s[..|b|];
    assert after == s[|before| + |marker|..] && a == s[|b| + |marker|..];
  }

  /** Text up to and including a marker decides whether that is its first occurrence. */
  lemma FirstByPrefix(head: string, marker: string, rest: string, rest': string)
    requires NoneBefore(head + marker + rest, marker, |head|)
    ensures NoneBefore(head + marker + rest', marker, |head|)
  {
    forall k: nat | k < |head|
      ensures !At(head + marker + rest', marker, k)
    {
      var n := k + |marker|;
      assert (head + marker + rest)[k..n] == (head + marker)[k..n] == (head + marker + rest')[k..n];
      assert !At(head + marker + rest, marker, k);
    }
  }

  // ---------- the block ----------

  datatype Markers = Markers(start: string, end: string)

  ghost predicate Proper(m: Markers) {
    && |m.start| > 2 && |m.end| > 2
    && m.start[0] == '#' && m.end[0] == '#' && m.start[2] != m.end[2]
    && (forall k :: 0 < k < |m.start| ==> m.start[k] != '#')
    && (forall k :: 0 < k < |m.end| ==> m.end[k] != '#')
    && (forall k :: 0 <= k < |m.start| ==> m.start[k] != '\n')
  }

  function Inner(command: string): string { "\n" + command + "\n" }

  function Block(m: Markers, command: string): string { m.start + Inner(command) + m.end }

  /** `profile_with_path`, for the command of a shell and system. */
  function WithBlock(m: Markers, command: string, existing: string): string {
    match SplitOnce(existing, m.start)
    case None => existing + "\n" + Block(m, command) + "\n"
    case Some((before, rest)) =>
      match SplitOnce(rest, m.end)
      case None => existing
      case Some((_, after)) => before + Block(m, command) + after
  }

  lemma InnerLacksEnd(m: Markers, command: string, after: string)
    requires Proper(m) && '#' !in command
    ensures NoneBefore(Inner(command) + m.end + after, m.end, |Inner(command)|)
  {
    var s := Inner(command) + m.end + after;
    forall k: nat | k < |Inner(command)|
      ensures !At(s, m.end, k)
    {
      assert s[k] == Inner(command)[k];
      assert s[k] == '\n' || s[k] in command;
      Mismatch(s, m.end, k, 0);
    }
  }

  /** The command stands on lines of its own between the markers. */
  lemma BlockInARow(m: Markers, command: string)
    ensures Block(m, command) == m.start + "\n" + command + "\n" + m.end
  {
  }

  lemma BlockSplit(m: Markers, command: string, before: string, after: string)
    ensures before + Block(m, command) + after == before + m.start + (Inner(command) + m.end + after)
  {
  }

  lemma BlockHasMarkers(m: Markers, command: string, before: string, after: string)
    ensures At(before + Block(m, command) + after, m.start, |before|)
    ensures At(before + Block(m, command) + after, m.end, |before + m.start + Inner(command)|)
  {
    var s := before + Block(m, command) + after;
    AtFront(before, m.start, Inner(command) + m.end + after);
    assert s == before + (m.start + (Inner(command) + m.end + after));
    AtFront(before + m.start + Inner(command), m.end, after);
    assert s == (before + m.start + Inner(command)) + (m.end + after);
  }

  /** START in a text with a block: at the block, or wherever it stands behind it. */
  lemma StartsAroundBlock(m: Markers, command: string, before: string, after: string, k: nat)
    requires Proper(m) && '#' !in command
    requires NoneBefore(before + Block(m, command) + after, m.start, |before|)
    ensures var n := |before| + |Block(m, command)|;
            At(before + Block(m, command) + after, m.start, k) <==>
            k == |before| || (k >= n && At(after, m.start, k - n))
  {
    var b := Block(m, command);
    var s := before + b + after;
    assert s == before + (b + after);
    if k == |before| {
      BlockHasMarkers(m, command, before, after);
    } else if k > |before| {
      AtShift(before, b + after, m.start, k);
      if k < |before| + |b| {
        StartInsideBlock(m, command, b + after, k - |before|);
      } else {
        AtShift(b, after, m.start, k - |before|);
      }
    }
  }

  /** Where a text holds the block and no START before it, the block is what is found. */
  lemma BlockIsFound(m: Markers, command: string, before: string, after: string)
    requires Proper(m) && '#' !in command
    requires NoneBefore(before + Block(m, command) + after, m.start, |before|)
    ensures WithBlock(m, command, before + Block(m, command) + after) == before + Block(m, command) + after
  {
    BlockSplit(m, command, before, after);
    SplitsAt(before + Block(m, command) + after, m.start, before, Inner(command) + m.end + after);
    InnerLacksEnd(m, command, after);
    SplitsAt(Inner(command) + m.end + after, m.end, Inner(command), after);
  }

  lemma NoStartInFront(m: Markers, command: string, before: string, rest: string, after: string)
    requires NoneBefore(before + m.start + rest, m.start, |before|)
    ensures NoneBefore(before + Block(m, command) + after, m.start, |before|)
  {
    FirstByPrefix(before, m.start, rest, Inner(command) + m.end + after);
    BlockSplit(m, command, before, after);
  }

  lemma NoStartAcrossLine(m: Markers, existing: string, rest: string)
    requires Proper(m) && Lacks(existing, m.start)
    ensures NoneBefore((existing + "\n") + rest, m.start, |existing| + 1)
  {
    var s := (existing + "\n") + rest;
    forall k: nat | k <= |existing|
      ensures !At(s, m.start, k)
    {
      if k + |m.start| <= |existing| {
        assert s[k..k + |m.start|] == existing[k..k + |m.start|];
        assert !At(existing, m.start, k);
      } else {
        assert s[|existing|] == '\n';
        Mismatch(s, m.start, k, |existing| - k);
      }
    }
  }

  /** Without a START the block goes behind the text, which stays as it was. */
  lemma AppendsBlock(m: Markers, command: string, existing: string)
    requires Proper(m) && Lacks(existing, m.start)
    ensures WithBlock(m, command, existing) == (existing + "\n") + Block(m, command) + "\n"
    ensures WithBlock(m, command, existing) == existing + "\n" + m.start + "\n" + command + "\n" + m.end + "\n"
    ensures NoneBefore(WithBlock(m, command, existing), m.start, |existing| + 1)
  {
    NoStartAcrossLine(m, existing, Block(m, command) + "\n");
    assert WithBlock(m, command, existing) == (existing + "\n") + (Block(m, command) + "\n");
  }

  /** With a START and an END after it, what stands from the first START to the first END
      after it is replaced, and the rest kept. */
  lemma ReplacesBlock(m: Markers, command: string, before: string, old_: string, after: string)
    requires var existing := before + m.start + (old_ + m.end + after);
             NoneBefore(existing, m.start, |before|) && NoneBefore(old_ + m.end + after, m.end, |old_|)
    ensures var existing := before + m.start + (old_ + m.end + after);
            && WithBlock(m, command, existing) == before + Block(m, command) + after
            && WithBlock(m, command, existing) == before + m.start + "\n" + command + "\n" + m.end + after
    ensures NoneBefore(before + Block(m, command) + after, m.start, |before|)
  {
    var rest := old_ + m.end + after;
    SplitsAt(before + m.start + rest, m.start, before, rest);
    SplitsAt(rest, m.end, old_, after);
    NoStartInFront(m, command, before, rest, after);
    BlockBetween(m, command, before, after);
  }

  lemma BlockBetween(m: Markers, command: string, before: string, after: string)
    ensures before + Block(m, command) + after == before + m.start + "\n" + command + "\n" + m.end + after
  {
  }

  /** With a START and no END after it, nothing changes. */
  lemma LeavesOpenBlock(m: Markers, command: string, before: string, rest: string)
    requires NoneBefore(before + m.start + rest, m.start, |before|) && Lacks(rest, m.end)
    ensures WithBlock(m, command, before + m.start + rest) == before + m.start + rest
  {
    SplitsAt(before + m.start + rest, m.start, before, rest);
  }

  /** The new text around its block, unless a START was left open. */
  lemma Outcome(m: Markers, command: string, existing: string) returns (before: string, after: string)
    requires Proper(m)
    requires var split := SplitOnce(existing, m.start); split.Some? ==> !Lacks(split.value.1, m.end)
    ensures WithBlock(m, command, existing) == before + Block(m, command) + after
    ensures NoneBefore(before + Block(m, command) + after, m.start, |before|)
    ensures Lacks(existing, m.start) ==> before == existing + "\n" && after == "\n"
    ensures !Lacks(existing, m.start) ==>
              var rest := SplitOnce(existing, m.start).value.1;
              before == SplitOnce(existing, m.start).value.0 && after == SplitOnce(rest, m.end).value.1
  {
    match SplitOnce(existing, m.start)
    case None =>
      before, after := existing + "\n", "\n";
      AppendsBlock(m, command, existing);
    case Some((b, rest)) =>
      var old_ := SplitOnce(rest, m.end).value.0;
      before, after := b, SplitOnce(rest, m.end).value.1;
      ReplacesBlock(m, command, before, old_, after);
  }

  /** Doing it again changes nothing. */
  lemma Idempotent(m: Markers, command: string, existing: string)
    requires Proper(m) && '#' !in command
    ensures WithBlock(m, command, WithBlock(m, command, existing)) == WithBlock(m, command, existing)
  {
    var split := SplitOnce(existing, m.start);
    if split.None? || !Lacks(split.value.1, m.end) {
      var before, after := Outcome(m, command, existing);
      BlockIsFound(m, command, before, after);
    }
  }

  lemma StartInsideBlock(m: Markers, command: string, s: string, i: nat)
    requires Proper(m) && '#' !in command
    requires Block(m, command) <= s && 0 < i < |Block(m, command)|
    ensures !At(s, m.start, i)
  {
    var b, e := Block(m, command), |Block(m, command)| - |m.end|;
    assert s[i] == b[i];
    if i < |m.start| {
      assert b[i] == m.start[i];
    } else if i < e {
      assert b[i] == Inner(command)[i - |m.start|];
      assert b[i] == '\n' || b[i] in command;
    } else {
      assert b[i] == m.end[i - e];
    }
    if i == e {
      assert s[e + 2] == b[e + 2] == m.end[2];
      Mismatch(s, m.start, i, 2);
    } else {
      Mismatch(s, m.start, i, 0);
    }
  }

  /** A text that had no START has one now. */
  lemma OneBlock(m: Markers, command: string, existing: string, k: nat)
    requires Proper(m) && '#' !in command && Lacks(existing, m.start)
    ensures At(WithBlock(m, command, existing), m.start, k) <==> k == |existing| + 1
  {
    AppendsBlock(m, command, existing);
    StartsAroundBlock(m, command, existing + "\n", "\n", k);
  }

  /** No second block: START stands where the first one stood, and beyond the block only
      where it stood in the text that was kept behind it. */
  lemma NoSecondBlock(m: Markers, command: string, before: string, old_: string, after: string, k: nat)
    requires Proper(m) && '#' !in command
    requires NoneBefore(before + m.start + (old_ + m.end + after), m.start, |before|)
    requires NoneBefore(old_ + m.end + after, m.end, |old_|)
    ensures var n := |before| + |Block(m, command)|;
            At(WithBlock(m, command, before + m.start + (old_ + m.end + after)), m.start, k) <==>
            k == |before| || (k >= n && At(after, m.start, k - n))
  {
    ReplacesBlock(m, command, before, old_, after);
    StartsAroundBlock(m, command, before, after, k);
  }

  // ---------- is the block installed? ----------

  /** What `path_configured` asks of the text. */
  ghost predicate Configured(m: Markers, command: string, linux: bool, text: string) {
    !Lacks(text, m.start) && !Lacks(text, m.end) && (!linux || WithBlock(m, command, text) == text)
  }

  /** A text is left alone exactly when the current block stands at its first START, or
      no END stands after that START. */
  lemma UnchangedIff(m: Markers, command: string, text: string)
    requires Proper(m) && '#' !in command
    ensures var split := SplitOnce(text, m.start);
            WithBlock(m, command, text) == text <==>
              split.Some? && (Lacks(split.value.1, m.end) || At(text, Block(m, command), |split.value.0|))
  {
    var split := SplitOnce(text, m.start);
    if split.None? {
      assert |WithBlock(m, command, text)| > |text|;
    } else if !Lacks(split.value.1, m.end) {
      var before, after := Outcome(m, command, text);
      BlockAt(m, command, before, after);
      if At(text, Block(m, command), |before|) {
        FromBlock(m, command, text, before);
      }
    }
  }

  lemma BlockAt(m: Markers, command: string, before: string, after: string)
    ensures At(before + Block(m, command) + after, Block(m, command), |before|)
  {
    var b := Block(m, command);
    AtFront(before, b, after);
    assert before + b + after == before + (b + after);
  }

  lemma FromBlock(m: Markers, command: string, text: string, before: string)
    requires Proper(m) && '#' !in command
    requires before <= text && NoneBefore(text, m.start, |before|) && At(text, Block(m, command), |before|)
    ensures WithBlock(m, command, text) == text
  {
    var after := text[|before| + |Block(m, command)|..];
    assert text == before + Block(m, command) + after;
    BlockIsFound(m, command, before, after);
  }

  /** After the renewal the text counts as configured exactly when it had no START or an END
      anywhere. An END in front of a START left open is enough, though no block is written. */
  lemma ConfiguredAfterwards(m: Markers, command: string, linux: bool, existing: string)
    requires Proper(m) && '#' !in command
    ensures Configured(m, command, linux, WithBlock(m, command, existing)) <==>
            Lacks(existing, m.start) || !Lacks(existing, m.end)
  {
    Idempotent(m, command, existing);
    var split := SplitOnce(existing, m.start);
    if split.None? || !Lacks(split.value.1, m.end) {
      var before, after := Outcome(m, command, existing);
      BlockHasMarkers(m, command, before, after);
    }
    if split.Some? && !Lacks(split.value.1, m.end) {
      var (before, rest) := split.value;
      var k: nat :| At(rest, m.end, k);
      AtShift(before + m.start, rest, m.end, |before + m.start| + k);
    }
  }

  /** A text with no END behind its first START holds no block. */
  lemma OpenLacksBlock(m: Markers, command: string, before: string, rest: string)
    requires NoneBefore(before + m.start + rest, m.start, |before|) && Lacks(rest, m.end)
    ensures Lacks(before + m.start + rest, Block(m, command))
  {
    var text, head := before + m.start + rest, m.start + Inner(command);
    forall k: nat
      ensures !At(text, Block(m, command), k)
    {
      if At(text, Block(m, command), k) {
        assert Block(m, command) == [] + m.start + (Inner(command) + m.end) == head + m.end + [];
        PartOccurs(text, [], m.start, Inner(command) + m.end, k);
        PartOccurs(text, head, m.end, [], k);
        AtShift(before + m.start, rest, m.end, k + |head|);
      }
    }
  }

  /** Exactly when the answer is wrong: after configuring, a text counts as configured and
      holds no block if and only if it had a START with no END behind it and an END
      somewhere. */
  lemma ConfiguredWronglyIff(m: Markers, command: string, linux: bool, existing: string)
    requires Proper(m) && '#' !in command
    ensures var split, text := SplitOnce(existing, m.start), WithBlock(m, command, existing);
            Configured(m, command, linux, text) && Lacks(text, Block(m, command)) <==>
            split.Some? && Lacks(split.value.1, m.end) && !Lacks(existing, m.end)
  {
    ConfiguredAfterwards(m, command, linux, existing);
    var split := SplitOnce(existing, m.start);
    if split.Some? && Lacks(split.value.1, m.end) {
      OpenLacksBlock(m, command, split.value.0, split.value.1);
    } else {
      var before, after := Outcome(m, command, existing);
      BlockAt(m, command, before, after);
    }
  }

  /** A text with a block in it counts as configured on Linux exactly when that block holds
      the current command, and elsewhere whatever it holds. */
  lemma BlockCountsIff(m: Markers, command: string, linux: bool, before: string, old_: string, after: string)
    requires NoneBefore(before + m.start + (old_ + m.end + after), m.start, |before|)
    requires NoneBefore(old_ + m.end + after, m.end, |old_|)
    ensures Configured(m, command, linux, before + m.start + (old_ + m.end + after)) <==>
            !linux || old_ == "\n" + command + "\n"
  {
    var text, rest := before + m.start + (old_ + m.end + after), old_ + m.end + after;
    AtFront(before, m.start, rest);
    assert text == before + (m.start + rest) == (before + m.start + old_) + (m.end + after);
    AtFront(before + m.start + old_, m.end, after);
    ReplacesBlock(m, command, before, old_, after);
    SameBlockIff(m, before, Inner(command), old_, after);
  }

  lemma SameBlockIff(m: Markers, before: string, x: string, y: string, after: string)
    ensures before + (m.start + x + m.end) + after == before + m.start + (y + m.end + after) <==> x == y
  {
    var s, t := before + (m.start + x + m.end) + after, before + m.start + (y + m.end + after);
    var n := |before| + |m.start|;
    if s == t {
      assert |x| == |y|;
      assert x == s[n..n + |x|] && y == t[n..n + |y|];
    }
  }

  lemma EndHidesNoStart(m: Markers)
    requires Proper(m)
    ensures NoneBefore(m.end + m.start, m.start, |m.end|)
  {
    forall k: nat | k < |m.end|
      ensures !At(m.end + m.start, m.start, k)
    {
      Mismatch(m.end + m.start, m.start, k, if k == 0 then 2 else 0);
    }
  }

  lemma EndThenStart(m: Markers)
    ensures !Lacks(m.end + m.start, m.start) && !Lacks(m.end + m.start, m.end)
  {
    AtFront([], m.end, m.start);
    assert m.end + m.start == [] + (m.end + m.start);
    AtFront(m.end, m.start, []);
    assert m.end + m.start == m.end + (m.start + []);
  }

  lemma TooShort(s: string, run: string)
    requires |s| < |run|
    ensures Lacks(s, run)
  {
  }

  /** That text: an END and then a START counts as configured, and no block is in it. */
  lemma ConfiguredWithoutBlock(m: Markers, command: string, linux: bool)
    requires Proper(m)
    ensures var text := m.end + m.start;
            Configured(m, command, linux, text) && Lacks(text, Block(m, command))
  {
    EndHidesNoStart(m);
    EndThenStart(m);
    assert m.end + m.start == m.end + m.start + [];
    TooShort([], m.end);
    LeavesOpenBlock(m, command, m.end, []);
    TooShort(m.end + m.start, Block(m, command));
  }

  // ---------- the markers and the commands ----------

  const START := "# >>> UniSSH command-line tools >>>"
  const END := "# <<< UniSSH command-line tools <<<"

  function Profile(): Markers { Markers(START, END) }

  lemma StartIsProper()
    ensures |START| == 35 && START[0] == '#' && START[2] == '>'
    ensures forall k :: 0 < k < |START| ==> START[k] != '#'
    ensures forall k :: 0 <= k < |START| ==> START[k] != '\n'
  {
    assert START[0] == '#' && START[2] == '>';
  }

  lemma EndIsProper()
    ensures |END| == 35 && END[0] == '#' && END[2] == '<'
    ensures forall k :: 0 < k < |END| ==> END[k] != '#'
  {
    assert END[0] == '#' && END[2] == '<';
  }

  lemma ProfileIsProper()
    ensures Proper(Profile())
  {
    StartIsProper();
    EndIsProper();
  }

  const BIN := "$HOME/.local/bin"
  const FISH := "fish_add_path --path "
  const IN_FRONT := "--move --prepend "
  const CASE := "case \"$PATH\" in\n"
  const CASE_ANYWHERE := "case \":$PATH:\" in\n"
  const EXPORT := "  *) export PATH=\""
  const ESAC := ":$PATH\" ;;\nesac"

  function Command(fish: bool, linux: bool): string {
    if fish then FISH + (if linux then IN_FRONT else "") + "\"" + BIN + "\""
    else (if linux then CASE + "  \"" + BIN + "\"|\"" + BIN + ":\"*) ;;\n"
          else CASE_ANYWHERE + "  *\":" + BIN + ":\"*) ;;\n")
         + EXPORT + BIN + ESAC
  }

  lemma NoHashInFish()
    ensures '#' !in BIN && '#' !in FISH && '#' !in IN_FRONT
  {
    assert '#' !in BIN;
    assert '#' !in FISH;
    assert '#' !in IN_FRONT;
  }

  lemma NoHashInCase()
    ensures '#' !in CASE && '#' !in CASE_ANYWHERE && '#' !in EXPORT && '#' !in ESAC
  {
    assert '#' !in CASE;
    assert '#' !in CASE_ANYWHERE;
    assert '#' !in EXPORT;
    assert '#' !in ESAC;
  }

  lemma NoHashInCommand(fish: bool, linux: bool)
    ensures '#' !in Command(fish, linux)
  {
    NoHashInFish();
    NoHashInCase();
  }

  /** For every profile, shell and system: a second run changes nothing. */
  lemma ProfileIdempotent(existing: string, fish: bool, linux: bool)
    ensures var s := WithBlock(Profile(), Command(fish, linux), existing);
            WithBlock(Profile(), Command(fish, linux), s) == s
  {
    ProfileIsProper();
    NoHashInCommand(fish, linux);
    Idempotent(Profile(), Command(fish, linux), existing);
  }

  /** ... and so does it with the markers themselves, for every shell and system. */
  lemma ProfileConfiguredWithoutBlock(fish: bool, linux: bool)
    ensures Configured(Profile(), Command(fish, linux), linux, END + START)
    ensures Lacks(END + START, Block(Profile(), Command(fish, linux)))
  {
    ProfileIsProper();
    ConfiguredWithoutBlock(Profile(), Command(fish, linux), linux);
  }
}
