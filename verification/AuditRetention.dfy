// internal/security/audit.go: FileAuditLogger.EnforceRetention. The file is its text.
module AuditRetention {
  import opened Options
  import opened Sequences

  // A maximal age or size of 0 or less sets no limit.
  datatype Policy = Policy(maxAge: int, maxSize: int)

  // The operation of the file system that reports an error, if any. Errors of writing the temporary
  // file are not reported: they are given by how much each write writes.
  datatype Fault = NoFault | Stat | Close | Open | CreateTemp | Rename | Reopen

  // The scanner's buffer; a line that does not fit is an error.
  const MAX_LINE := 1024 * 1024

  // ---- text and lines ----

  // Each line with its newline.
  function Text(lines: seq<string>): string {
    if lines == [] then "" else Text(lines[..|lines| - 1]) + lines[|lines| - 1] + "\n"
  }

  // What stands between the newlines, before the first and after the last.
  function Pieces(text: string): (ps: seq<string>)
    ensures ps != []
  {
    if text == "" then [""]
    else
      var ps, c := Pieces(text[..|text| - 1]), text[|text| - 1];
      if c == '\n' then ps + [""] else ps[|ps| - 1 := ps[|ps| - 1] + [c]]
  }

  // The lines a scanner yields: an empty piece at the end is none.
  function Lines(text: string): seq<string> {
    var ps := Pieces(text);
    if ps[|ps| - 1] == "" then ps[..|ps| - 1] else ps
  }

  ghost predicate NoNewline(line: string) {
    forall i :: 0 <= i < |line| ==> line[i] != '\n'
  }

  // ---- what retention means ----

  function Size(lines: seq<string>): nat {
    if lines == [] then 0 else |lines[0]| + 1 + Size(lines[1..])
  }

  // A line is too old if its time stamp can be read and is before the cutoff.
  predicate TooOld(stamp: string -> Option<int>, cutoff: Option<int>, line: string) {
    cutoff.Some? && stamp(line).Some? && stamp(line).value < cutoff.value
  }

  predicate Survives(stamp: string -> Option<int>, cutoff: Option<int>, line: string) {
    line != "" && !TooOld(stamp, cutoff, line)
  }

  function Survivors(stamp: string -> Option<int>, cutoff: Option<int>, lines: seq<string>): seq<string> {
    if lines == [] then []
    else
      var rest := Survivors(stamp, cutoff, lines[..|lines| - 1]);
      if Survives(stamp, cutoff, lines[|lines| - 1]) then rest + [lines[|lines| - 1]] else rest
  }

  function NonEmpty(lines: seq<string>): nat {
    if lines == [] then 0 else NonEmpty(lines[..|lines| - 1]) + if lines[|lines| - 1] != "" then 1 else 0
  }

  // `kept` is the longest suffix of `lines` within `max` bytes, all of them without a limit.
  ghost predicate IsLongestFit(lines: seq<string>, max: int, kept: seq<string>) {
    if max <= 0 then kept == lines
    else exists k: nat :: FitsFrom(lines, max, k) && kept == lines[k..]
  }

  ghost predicate FitsFrom(lines: seq<string>, max: int, k: nat) {
    && k <= |lines|
    && SizeFrom(lines, k) <= max
    && forall j :: 0 <= j < k ==> SizeFrom(lines, j) > max
  }

  function SizeFrom(lines: seq<string>, k: nat): nat
    requires k <= |lines|
  {
    Size(lines[k..])
  }

  ghost predicate Retained(stamp: string -> Option<int>, cutoff: Option<int>, max: int, lines: seq<string>,
                           kept: seq<string>) {
    IsLongestFit(Survivors(stamp, cutoff, lines), max, kept)
  }

  function Cutoff(policy: Policy, now: int): Option<int> {
    if policy.maxAge > 0 then Some(now - policy.maxAge) else None
  }

  // ---- writing ----

  // How much is written of line `i`, and whether its newline is written.
  datatype Writes = Writes(line: nat -> nat, newline: nat -> bool)

  predicate WritesAll(writes: Writes, kept: seq<string>, i: nat)
    requires i < |kept|
  {
    writes.line(i) >= |kept[i]| && writes.newline(i)
  }

  ghost predicate Complete(kept: seq<string>, writes: Writes) {
    forall i :: 0 <= i < |kept| ==> WritesAll(writes, kept, i)
  }

  function Part(line: string, count: nat): (p: string)
    ensures p <= line && |p| == if count < |line| then count else |line|
  {
    if count < |line| then line[..count] else line
  }

  function Written(line: string, i: nat, writes: Writes): string {
    Part(line, writes.line(i)) + if writes.newline(i) then "\n" else ""
  }

  // The file that results; the errors of the writes are ignored.
  function WrittenText(kept: seq<string>, writes: Writes): string {
    if kept == [] then ""
    else WrittenText(kept[..|kept| - 1], writes) + Written(kept[|kept| - 1], |kept| - 1, writes)
  }

  // ---- the code ----

  class FileAuditLogger {
    var text: string
    var isOpen: bool
    var retention: Option<Policy>

    // The file is small enough and there is no maximal age.
    predicate NothingToDo()
      reads this
    {
      retention.None? ||
      (retention.value.maxSize > 0 && |text| <= retention.value.maxSize && retention.value.maxAge == 0)
    }

    // An error that stops retention before the file is replaced.
    ghost predicate Stops(fault: Fault)
      reads this
    {
      || (fault == Stat && retention.Some? && retention.value.maxSize > 0)
      || (!NothingToDo() && fault in {Close, Open, CreateTemp, Rename})
      || (!NothingToDo() && exists i :: 0 <= i < |Lines(text)| && |Lines(text)[i]| >= MAX_LINE)
    }

    // The file is replaced exactly if there is something to do and no error stops it. Then it holds
    // what the policy retains, in order, exactly if no write of the temporary file fell short; the
    // lines reported removed and the lines kept are all lines that are not empty. Retention fails
    // exactly if it is stopped or the new file cannot be opened.
    method EnforceRetention(now: int, stamp: string -> Option<int>, writes: Writes, fault: Fault)
      returns (removed: nat, failed: bool, ghost kept: seq<string>)
      modifies this`text, this`isOpen
      ensures old(NothingToDo()) || old(Stops(fault)) ==> text == old(text) && removed == 0
      ensures failed <==> old(Stops(fault)) || (!old(NothingToDo()) && fault == Reopen)
      ensures !old(NothingToDo()) && !old(Stops(fault)) ==>
              && Retained(stamp, Cutoff(retention.value, now), retention.value.maxSize, Lines(old(text)), kept)
              && removed + |kept| == NonEmpty(Lines(old(text)))
              && text == WrittenText(kept, writes) && (text == Text(kept) <==> Complete(kept, writes))
      ensures old(isOpen) && !isOpen ==> failed && (fault == Open || fault == Reopen)
    {
      kept := [];
      if retention.None? {
        return 0, false, kept;
      }
      var policy := retention.value;
      if policy.maxSize > 0 {
        if fault == Stat {
          return 0, true, kept;
        }
        if |text| <= policy.maxSize && policy.maxAge == 0 {
          return 0, false, kept;
        }
      }
      if fault == Close {
        return 0, true, kept;
      }
      isOpen := false;
      if fault == Open {
        return 0, true, kept;
      }
      var rest, tooLong;
      rest, removed, tooLong := Filter(Lines(text), stamp, Cutoff(policy, now));
      if tooLong || fault == CreateTemp || fault == Rename {
        isOpen := true;
        return 0, true, kept;
      }
      var trimmed;
      rest, trimmed := Trim(rest, policy.maxSize);
      removed := removed + trimmed;
      kept := rest;
      text := WriteLines(rest, writes);
      WrittenIff(rest, writes);
      isOpen := fault != Reopen;
      failed := fault == Reopen;
    }
  }

  method Filter(lines: seq<string>, stamp: string -> Option<int>, cutoff: Option<int>)
    returns (kept: seq<string>, removed: nat, tooLong: bool)
    ensures tooLong <==> exists i :: 0 <= i < |lines| && |lines[i]| >= MAX_LINE
    ensures !tooLong ==> kept == Survivors(stamp, cutoff, lines) && removed + |kept| == NonEmpty(lines)
  {
    kept, removed := [], 0;
    for i := 0 to |lines|
      invariant kept == Survivors(stamp, cutoff, lines[..i]) && removed + |kept| == NonEmpty(lines[..i])
      invariant forall j :: 0 <= j < i ==> |lines[j]| < MAX_LINE
    {
      assert lines[..i + 1][..i] == lines[..i];
      var line := lines[i];
      if |line| >= MAX_LINE {
        return [], 0, true;
      }
      if |line| == 0 {
        continue;
      }
      if cutoff.Some? {
        var at := stamp(line);
        if at.Some? && at.value < cutoff.value {
          removed := removed + 1;
          continue;
        }
      }
      kept := kept + [line];
    }
    assert lines[..|lines|] == lines;
    tooLong := false;
  }

  // Drops the oldest lines until the rest fits.
  method Trim(lines: seq<string>, maxSize: int) returns (kept: seq<string>, removed: nat)
    ensures IsLongestFit(lines, maxSize, kept) && removed + |kept| == |lines|
  {
    kept, removed := lines, 0;
    var keptSize := Size(lines);
    assert lines[0..] == lines;
    if maxSize > 0 && keptSize > maxSize {
      while |kept| > 0 && keptSize > maxSize
        invariant removed <= |lines| && kept == lines[removed..] && keptSize == SizeFrom(lines, removed)
        invariant forall j :: 0 <= j < removed ==> SizeFrom(lines, j) > maxSize
      {
        keptSize := keptSize - (|kept[0]| + 1);
        kept := kept[1..];
        removed := removed + 1;
      }
      assert FitsFrom(lines, maxSize, removed);
    } else if maxSize > 0 {
      assert FitsFrom(lines, maxSize, 0);
    }
  }

  method WriteLines(kept: seq<string>, writes: Writes) returns (text: string)
    ensures text == WrittenText(kept, writes)
  {
    text := "";
    for i := 0 to |kept|
      invariant text == WrittenText(kept[..i], writes)
    {
      assert kept[..i + 1][..i] == kept[..i];
      ghost var before := text;
      text := text + Part(kept[i], writes.line(i));
      if writes.newline(i) {
        text := text + "\n";
      }
      assert text == before + Written(kept[i], i, writes);
    }
    assert kept[..|kept|] == kept;
  }

  // ---- writes that fall short ----

  lemma {:induction false} WrittenUpTo(kept: seq<string>, writes: Writes)
    ensures if Complete(kept, writes) then WrittenText(kept, writes) == Text(kept)
            else |WrittenText(kept, writes)| < |Text(kept)|
  {
    if kept != [] {
      var n := |kept| - 1;
      WrittenUpTo(kept[..n], writes);
      CompleteUpTo(kept, writes);
      Assoc3(Text(kept[..n]), kept[n], "\n");
    }
  }

  lemma CompleteUpTo(kept: seq<string>, writes: Writes)
    requires kept != []
    ensures Complete(kept, writes) <==> Complete(kept[..|kept| - 1], writes) && WritesAll(writes, kept, |kept| - 1)
  {
    var front := kept[..|kept| - 1];
    assert forall i :: 0 <= i < |front| ==> (WritesAll(writes, front, i) <==> WritesAll(writes, kept, i));
  }

  // The file holds the lines kept exactly if every write is complete.
  lemma WrittenIff(kept: seq<string>, writes: Writes)
    ensures WrittenText(kept, writes) == Text(kept) <==> Complete(kept, writes)
  {
    WrittenUpTo(kept, writes);
  }

  // All writes are complete but that of line `i`, of which nothing is written.
  predicate AllBut(kept: seq<string>, writes: Writes, i: nat) {
    && writes.line(i) == 0 && writes.newline(i)
    && forall j :: 0 <= j < |kept| && j != i ==> WritesAll(writes, kept, j)
  }

  // One write that fails loses its line, and nobody is told.
  lemma LineIsLost(kept: seq<string>, writes: Writes, i: nat)
    requires i < |kept| && AllBut(kept, writes, i) && forall l :: l in kept ==> NoNewline(l)
    ensures Lines(WrittenText(kept, writes)) == kept[i := ""]
  {
    var left := kept[i := ""];
    LostUpTo(kept, writes, i, |kept|);
    assert kept[..|kept|] == kept && left[..|left|] == left;
    LinesOfText(left);
  }

  lemma {:induction false} LostUpTo(kept: seq<string>, writes: Writes, i: nat, n: nat)
    requires i < |kept| && AllBut(kept, writes, i) && n <= |kept|
    ensures WrittenText(kept[..n], writes) == Text(kept[i := ""][..n])
  {
    if n > 0 {
      var a, b, k := kept[..n], kept[i := ""][..n], n - 1;
      LostUpTo(kept, writes, i, k);
      assert a[..k] == kept[..k] && b[..k] == kept[i := ""][..k];
      assert Written(a[k], k, writes) == b[k] + "\n" by {
        if k != i {
          assert WritesAll(writes, kept, k);
        }
      }
      Assoc3(Text(b[..k]), b[k], "\n");
    }
  }

  // ---- reading back what was written ----

  lemma PiecesAppend(text: string, line: string)
    requires NoNewline(line)
    ensures var ps := Pieces(text);
            Pieces(text + line) == ps[|ps| - 1 := ps[|ps| - 1] + line]
    decreases |line|
  {
    var ps := Pieces(text);
    if line == "" {
      assert text + line == text && ps[|ps| - 1] + line == ps[|ps| - 1];
    } else {
      var n := |line| - 1;
      PiecesAppend(text, line[..n]);
      ConcatSnoc(text, line);
      Front(text + line[..n], line[n]);
      Snoc(line);
      Assoc3(ps[|ps| - 1], line[..n], [line[n]]);
    }
  }

  lemma {:induction false} PiecesOfText(lines: seq<string>)
    requires forall l :: l in lines ==> NoNewline(l)
    ensures Pieces(Text(lines)) == lines + [""]
  {
    if lines != [] {
      var n := |lines| - 1;
      var text := Text(lines[..n]);
      PiecesOfText(lines[..n]);
      PiecesAppend(text, lines[n]);
      Front(text + lines[n], '\n');
      assert "" + lines[n] == lines[n];
      assert (lines[..n] + [""])[n := lines[n]] == lines;
    }
  }

  // A file that was written completely reads back as the lines written.
  lemma LinesOfText(lines: seq<string>)
    requires forall l :: l in lines ==> NoNewline(l)
    ensures Lines(Text(lines)) == lines
  {
    PiecesOfText(lines);
    assert (lines + [""])[..|lines|] == lines;
  }

  lemma {:induction false} PiecesHaveNoNewline(text: string)
    ensures forall p :: p in Pieces(text) ==> NoNewline(p)
  {
    if text != "" {
      PiecesHaveNoNewline(text[..|text| - 1]);
      var ps := Pieces(text[..|text| - 1]);
      assert ps[|ps| - 1] in ps;
    }
  }

  lemma {:induction false} SizeOfText(lines: seq<string>)
    ensures |Text(lines)| == Size(lines)
  {
    if lines != [] {
      var n := |lines| - 1;
      SizeOfText(lines[..n]);
      SizeSnoc(lines[..n], lines[n]);
      Snoc(lines);
    }
  }

  lemma {:induction false} SizeSnoc(lines: seq<string>, l: string)
    ensures Size(lines + [l]) == Size(lines) + |l| + 1
  {
    if lines == [] {
      assert lines + [l] == [l] && [l][1..] == [];
    } else {
      SizeSnoc(lines[1..], l);
      assert (lines + [l])[1..] == lines[1..] + [l];
    }
  }

  // A last line without a newline is a line too.
  lemma LinesOfUnterminated(lines: seq<string>, last: string)
    requires (forall l :: l in lines ==> NoNewline(l)) && NoNewline(last) && last != ""
    ensures Lines(Text(lines) + last) == lines + [last]
  {
    PiecesOfText(lines);
    PiecesAppend(Text(lines), last);
    assert "" + last == last;
    assert (lines + [""])[|lines| := last] == lines + [last];
  }

  // The count of non-empty lines, by position.
  lemma {:induction false} NonEmptyCounts(lines: seq<string>)
    ensures NonEmpty(lines) == |set i | 0 <= i < |lines| && lines[i] != ""|
  {
    var all := set i | 0 <= i < |lines| && lines[i] != "";
    if lines != [] {
      var n := |lines| - 1;
      NonEmptyCounts(lines[..n]);
      var front := set i | 0 <= i < |lines[..n]| && lines[..n][i] != "";
      assert all == if lines[n] != "" then front + {n} else front;
    }
  }

  // ---- which lines survive ----

  // With a maximal age, a line survives exactly if it is not empty and has no readable time stamp or
  // is not older than that; without one, every line that is not empty survives.
  lemma SurvivesIff(policy: Policy, now: int, stamp: string -> Option<int>, line: string)
    ensures Survives(stamp, Cutoff(policy, now), line) <==>
            line != "" && (policy.maxAge <= 0 || stamp(line).None? || now - stamp(line).value <= policy.maxAge)
  {
  }

  function Surviving(stamp: string -> Option<int>, cutoff: Option<int>, lines: seq<string>): set<nat> {
    set i | 0 <= i < |lines| && Survives(stamp, cutoff, lines[i])
  }

  lemma SurvivingNext(stamp: string -> Option<int>, cutoff: Option<int>, lines: seq<string>)
    requires lines != []
    ensures var n := |lines| - 1;
            var front := Surviving(stamp, cutoff, lines[..n]);
            && n !in front
            && Surviving(stamp, cutoff, lines) == if Survives(stamp, cutoff, lines[n]) then front + {n} else front
  {
  }

  // The filter keeps as many lines as survive, by position; with SurvivorsSurvive these are all of them.
  lemma {:induction false} SurvivorsAreCounted(stamp: string -> Option<int>, cutoff: Option<int>, lines: seq<string>)
    ensures |Survivors(stamp, cutoff, lines)| == |Surviving(stamp, cutoff, lines)|
    decreases |lines|
  {
    if lines != [] {
      SurvivorsAreCounted(stamp, cutoff, lines[..|lines| - 1]);
      SurvivingNext(stamp, cutoff, lines);
    }
  }

  // ---- a second pass changes nothing ----

  lemma {:induction false} SurvivorsSurvive(stamp: string -> Option<int>, cutoff: Option<int>, lines: seq<string>)
    ensures forall l :: l in Survivors(stamp, cutoff, lines) ==> Survives(stamp, cutoff, l) && l in lines
    ensures IsSubsequence(Survivors(stamp, cutoff, lines), lines)
  {
    if lines != [] {
      var n := |lines| - 1;
      SurvivorsSurvive(stamp, cutoff, lines[..n]);
      Snoc(lines);
      if Survives(stamp, cutoff, lines[n]) {
        SubsequenceMatch(Survivors(stamp, cutoff, lines[..n]), lines[..n], lines[n]);
      } else {
        SubsequenceSkip(Survivors(stamp, cutoff, lines[..n]), lines[..n], lines[n]);
      }
    }
  }

  lemma {:induction false} AllSurvive(stamp: string -> Option<int>, cutoff: Option<int>, lines: seq<string>)
    requires forall l :: l in lines ==> Survives(stamp, cutoff, l)
    ensures Survivors(stamp, cutoff, lines) == lines && NonEmpty(lines) == |lines|
  {
    if lines != [] {
      AllSurvive(stamp, cutoff, lines[..|lines| - 1]);
      Snoc(lines);
    }
  }

  lemma FitIsUnique(lines: seq<string>, max: int, k: nat, l: nat)
    requires FitsFrom(lines, max, k) && FitsFrom(lines, max, l)
    ensures k == l
  {
  }

  // Lines that are kept survive, come from the file, and fit.
  lemma KeptSurvive(stamp: string -> Option<int>, cutoff: Option<int>, max: int, lines: seq<string>, kept: seq<string>)
    requires Retained(stamp, cutoff, max, lines, kept)
    ensures forall l :: l in kept ==> Survives(stamp, cutoff, l) && l in lines
    ensures max > 0 ==> |Text(kept)| <= max
  {
    SurvivorsSurvive(stamp, cutoff, lines);
    SizeOfText(kept);
  }

  lemma RetainingTwice(stamp: string -> Option<int>, cutoff: Option<int>, max: int, lines: seq<string>,
                       once: seq<string>, twice: seq<string>)
    requires Retained(stamp, cutoff, max, lines, once) && Retained(stamp, cutoff, max, once, twice)
    ensures twice == once && NonEmpty(once) == |once|
  {
    KeptSurvive(stamp, cutoff, max, lines, once);
    SizeOfText(once);
    AllSurvive(stamp, cutoff, once);
    if max > 0 {
      assert once[0..] == once;
      assert FitsFrom(once, max, 0);
      var k: nat :| FitsFrom(once, max, k) && twice == once[k..];
      FitIsUnique(once, max, 0, k);
    }
  }

  // Running retention again with the same cutoff on the file it has written removes nothing and
  // writes the same file.
  lemma RetentionIsIdempotent(stamp: string -> Option<int>, cutoff: Option<int>, max: int, text: string,
                              once: seq<string>, twice: seq<string>)
    requires Retained(stamp, cutoff, max, Lines(text), once) && Retained(stamp, cutoff, max, Lines(Text(once)), twice)
    ensures Text(twice) == Text(once) && NonEmpty(Lines(Text(once))) == |twice|
  {
    KeptSurvive(stamp, cutoff, max, Lines(text), once);
    PiecesHaveNoNewline(text);
    LinesOfText(once);
    RetainingTwice(stamp, cutoff, max, Lines(text), once, twice);
  }
}
