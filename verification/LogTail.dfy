/** Following a growing log file and flushing what is left of it. Newlines are as Python's text mode delivers them. */
module LogTail {
  import opened Basics
  import opened Specs

  /** The characters at which `str.splitlines` ends a line; text mode has already turned CR into LF. */
  predicate IsBreak(c: char) {
    c in {'\n', '\U{0b}', '\U{0c}', '\U{1c}', '\U{1d}', '\U{1e}', '\U{85}', '\U{2028}', '\U{2029}'}
  }

  /** `str.splitlines`, with `line` the part of the current line already read. */
  function LinesFrom(line: string, s: string): seq<string>
    decreases s
  {
    if s == "" then if line == "" then [] else [line]
    else if IsBreak(s[0]) then [line] + LinesFrom("", s[1..])
    else LinesFrom(line + [s[0]], s[1..])
  }

  function SplitLines(s: string): seq<string> { LinesFrom("", s) }

  predicate NotBlank(line: string) { Strip(line) != "" }

  /** The lines a chunk of text gives rise to. */
  function Lines(s: string): seq<string> { Filter(NotBlank, SplitLines(s)) }

  /** The file as a poll finds it; None when it is missing or cannot be read. */
  type Poll = Option<string>

  /** Text is only ever appended. */
  predicate Grows(polls: seq<Poll>, so_far: string, final: string) {
    if polls == [] then so_far <= final
    else
      match polls[0]
      case None => Grows(polls[1..], so_far, final)
      case Some(text) => so_far <= text && Grows(polls[1..], text, final)
  }

  /** The chunks the tailer reads from `offset` on, and its final offset. */
  function Chunks(polls: seq<Poll>, offset: nat): seq<string> {
    if polls == [] then []
    else
      match polls[0]
      case None => Chunks(polls[1..], offset)
      case Some(text) => if offset < |text| then [text[offset..]] + Chunks(polls[1..], |text|) else Chunks(polls[1..], offset)
  }

  function Offset(polls: seq<Poll>, offset: nat): nat {
    if polls == [] then offset
    else
      match polls[0]
      case None => Offset(polls[1..], offset)
      case Some(text) => Offset(polls[1..], if offset < |text| then |text| else offset)
  }

  function LinesOfAll(chunks: seq<string>): seq<string> {
    if chunks == [] then [] else Lines(chunks[0]) + LinesOfAll(chunks[1..])
  }

  /** `_tail_log` over the polls it gets to make before it is cancelled. */
  method TailLog(polls: seq<Poll>) returns (offset: nat, published: seq<string>)
    ensures offset == Offset(polls, 0)
    ensures published == LinesOfAll(Chunks(polls, 0))
  {
    offset, published := 0, [];
    for i := 0 to |polls|
      invariant Offset(polls[i..], offset) == Offset(polls, 0)
      invariant published + LinesOfAll(Chunks(polls[i..], offset)) == LinesOfAll(Chunks(polls, 0))
    {
      assert polls[i..][0] == polls[i] && polls[i..][1..] == polls[i + 1..];
      if polls[i].Some? {
        var text := polls[i].value;
        var data := if offset < |text| then text[offset..] else "";
        if data != "" {
          published := PublishLines(data, published);
          offset := |text|;
        }
      }
    }
  }

  method PublishLines(data: string, before: seq<string>) returns (published: seq<string>)
    ensures published == before + Lines(data)
  {
    var lines := SplitLines(data);
    published := before;
    for i := 0 to |lines|
      invariant published + Filter(NotBlank, lines[i..]) == before + Filter(NotBlank, lines)
    {
      assert lines[i..][0] == lines[i] && lines[i..][1..] == lines[i + 1..];
      if NotBlank(lines[i]) { published := published + [lines[i]]; }
    }
    assert lines[|lines|..] == [];
  }

  /** `_flush_remaining`. */
  method FlushRemaining(file: Poll, offset: nat, before: seq<string>) returns (published: seq<string>)
    ensures published == before + if file.Some? && offset <= |file.value| then Lines(file.value[offset..]) else []
  {
    published := before;
    if file.Some? && offset < |file.value| {
      published := PublishLines(file.value[offset..], published);
    } else if file.Some? && offset == |file.value| {
      assert Lines(file.value[offset..]) == [];
    }
  }

  // ----- nothing is lost or read twice -----

  lemma {:induction false} OffsetIsLength(polls: seq<Poll>, so_far: string, final: string)
    requires Grows(polls, so_far, final)
    ensures |so_far| <= Offset(polls, |so_far|) <= |final|
    ensures so_far + Flatten(Chunks(polls, |so_far|)) == final[..Offset(polls, |so_far|)]
  {
    if polls == [] {
      assert so_far + [] == so_far;
    } else {
      match polls[0]
      case None => OffsetIsLength(polls[1..], so_far, final);
      case Some(text) =>
        OffsetIsLength(polls[1..], text, final);
        if |so_far| < |text| {
          var rest := Chunks(polls[1..], |text|);
          assert text == so_far + text[|so_far|..];
          assert Flatten([text[|so_far|..]] + rest) == text[|so_far|..] + Flatten(rest);
          assert so_far + (text[|so_far|..] + Flatten(rest)) == text + Flatten(rest);
        } else {
          assert text == so_far;
        }
    }
  }

  /**
   For every schedule of polls and every moment of cancellation, what the tailer read
   followed by what the flush reads is the file, whole and once. A tailer cancelled
   before it ever ran leaves offset 0 and everything to the flush.
   */
  lemma {:induction false} TailAndFlushReadTheFile(polls: seq<Poll>, final: string)
    requires Grows(polls, "", final)
    ensures Offset(polls, 0) <= |final|
    ensures Flatten(Chunks(polls, 0) + [final[Offset(polls, 0)..]]) == final
    ensures Offset([], 0) == 0 && final[Offset([], 0)..] == final
  {
    OffsetIsLength(polls, "", final);
    FlattenConcat(Chunks(polls, 0), [final[Offset(polls, 0)..]]);
    assert "" + Flatten(Chunks(polls, 0)) == Flatten(Chunks(polls, 0));
    assert Flatten([final[Offset(polls, 0)..]]) == final[Offset(polls, 0)..];
    assert final[..Offset(polls, 0)] + final[Offset(polls, 0)..] == final;
  }

  // ----- lines -----

  lemma {:induction false} LinesFromKeepText(line: string, s: string)
    ensures Flatten(LinesFrom(line, s)) == line + Filter(c => !IsBreak(c), s)
    ensures (forall c :: c in line ==> !IsBreak(c)) ==> forall l, c :: l in LinesFrom(line, s) && c in l ==> !IsBreak(c)
    decreases s
  {
    if s == "" {
      assert line + Filter(c => !IsBreak(c), s) == line;
      assert Flatten([line]) == line + [];
    } else if IsBreak(s[0]) {
      LinesFromKeepText("", s[1..]);
      assert "" + Filter(c => !IsBreak(c), s[1..]) == Filter(c => !IsBreak(c), s[1..]);
      assert ([line] + LinesFrom("", s[1..]))[1..] == LinesFrom("", s[1..]);
    } else {
      LinesFromKeepText(line + [s[0]], s[1..]);
      assert line + [s[0]] + Filter(c => !IsBreak(c), s[1..]) == line + ([s[0]] + Filter(c => !IsBreak(c), s[1..]));
    }
  }

  /** Splitting into lines loses nothing but the line breaks, and leaves none. */
  lemma {:induction false} SplitKeepsText(s: string)
    ensures Flatten(SplitLines(s)) == Filter(c => !IsBreak(c), s)
    ensures forall l, c :: l in SplitLines(s) && c in l ==> !IsBreak(c)
  {
    LinesFromKeepText("", s);
    assert "" + Filter(c => !IsBreak(c), s) == Filter(c => !IsBreak(c), s);
  }

  predicate WholeLines(s: string) { s == "" || IsBreak(s[|s| - 1]) }

  lemma {:induction false} LinesFromConcat(line: string, a: string, b: string)
    requires a != "" && WholeLines(a)
    ensures LinesFrom(line, a + b) == LinesFrom(line, a) + SplitLines(b)
    decreases a
  {
    assert (a + b)[0] == a[0] && (a + b)[1..] == a[1..] + b;
    if IsBreak(a[0]) {
      if a[1..] == "" {
        assert a[1..] + b == b && LinesFrom("", a[1..]) == [];
      } else {
        LinesFromConcat("", a[1..], b);
      }
    } else {
      LinesFromConcat(line + [a[0]], a[1..], b);
    }
  }

  lemma {:induction false} LinesConcat(a: string, b: string)
    requires WholeLines(a)
    ensures Lines(a + b) == Lines(a) + Lines(b)
  {
    if a == "" {
      assert a + b == b;
    } else {
      LinesFromConcat("", a, b);
      FilterConcat(NotBlank, SplitLines(a), SplitLines(b));
    }
  }

  predicate AllWhole(polls: seq<Poll>) {
    forall i :: 0 <= i < |polls| && polls[i].Some? ==> WholeLines(polls[i].value)
  }

  lemma {:induction false} ChunksWhole(polls: seq<Poll>, offset: nat)
    requires AllWhole(polls)
    ensures forall c :: c in Chunks(polls, offset) ==> WholeLines(c)
  {
    if polls != [] {
      assert forall i :: 0 <= i < |polls[1..]| ==> polls[1..][i] == polls[i + 1];
      match polls[0]
      case None => ChunksWhole(polls[1..], offset);
      case Some(text) => ChunksWhole(polls[1..], if offset < |text| then |text| else offset);
    }
  }

  lemma {:induction false} LinesOfWholeChunks(chunks: seq<string>, last: string)
    requires forall c :: c in chunks ==> WholeLines(c)
    ensures LinesOfAll(chunks) + Lines(last) == Lines(Flatten(chunks + [last]))
  {
    if chunks == [] {
      assert chunks + [last] == [last] && Flatten([last]) == last;
    } else {
      LinesOfWholeChunks(chunks[1..], last);
      assert (chunks + [last])[0] == chunks[0] && (chunks + [last])[1..] == chunks[1..] + [last];
      LinesConcat(chunks[0], Flatten(chunks[1..] + [last]));
    }
  }

  /** When every poll ends on a whole line, the published lines are the file's non-blank lines, in order and each once. */
  lemma {:induction false} WholePollsPublishTheLines(polls: seq<Poll>, final: string)
    requires Grows(polls, "", final) && AllWhole(polls)
    ensures Offset(polls, 0) <= |final|
    ensures LinesOfAll(Chunks(polls, 0)) + Lines(final[Offset(polls, 0)..]) == Lines(final)
  {
    TailAndFlushReadTheFile(polls, final);
    ChunksWhole(polls, 0);
    LinesOfWholeChunks(Chunks(polls, 0), final[Offset(polls, 0)..]);
  }

  /** A poll in the middle of a line publishes the line in two pieces. */
  lemma {:induction false} MidLinePollTearsALine()
    ensures Grows([Some("ab")], "", "abcd\n")
    ensures LinesOfAll(Chunks([Some("ab")], 0)) + Lines("abcd\n"[2..]) == ["ab", "cd"]
    ensures Lines("abcd\n") == ["abcd"]
  {
    assert Some("ab").value == "ab" && "ab" <= "abcd\n";
    assert [Some("ab")][1..] == [];
    assert Chunks([Some("ab")], 0) == ["ab"[0..]] && "ab"[0..] == "ab";
    Word("ab", "ab");
    assert "abcd\n"[2..] == "cd" + "\n" && "abcd\n" == "abcd" + "\n";
    Word("cd", "cd\n");
    Word("abcd", "abcd\n");
    assert LinesOfAll(["ab"]) == Lines("ab");
  }

  lemma {:induction false} Word(word: string, text: string)
    requires word != "" && (forall c :: c in word ==> !IsBreak(c)) && !IsSpace(word[0]) && !IsSpace(word[|word| - 1])
    requires text == word || text == word + "\n"
    ensures Lines(text) == [word]
  {
    var rest := text[|word|..];
    WordLine("", word, rest);
    assert text == word + rest && "" + word == word;
    assert rest == "" || rest == "\n";
    assert rest == "\n" ==> rest[1..] == "";
    assert LinesFrom(word, rest) == [word];
    assert SplitLines(text) == [word];
    assert NotBlank(word) by { assert Strip(word) == word; }
    assert Filter(NotBlank, [word][1..]) == [];
    assert Filter(NotBlank, [word]) == [word];
  }

  lemma {:induction false} WordLine(line: string, word: string, rest: string)
    requires forall c :: c in word ==> !IsBreak(c)
    ensures LinesFrom(line, word + rest) == LinesFrom(line + word, rest)
    decreases word
  {
    if word == "" {
      assert word + rest == rest && line + word == line;
    } else {
      assert (word + rest)[0] == word[0] && (word + rest)[1..] == word[1..] + rest;
      WordLine(line + [word[0]], word[1..], rest);
      assert line + [word[0]] + word[1..] == line + word;
    }
  }
}
