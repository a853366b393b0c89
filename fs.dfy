/**
 * `read_lines` (src/fs.rs): read a file, split it into lines, trim each
 * line, drop the lines that are empty after trimming and keep the rest in
 * order, duplicates included. A failed read or a line that is not valid
 * UTF-8 makes the whole call fail.
 */
module Fs {
  import opened Wrappers
  import opened Strings

  /** Why reading the address file failed. */
  datatype ReadError =
    | Io(cause: string)   // the file could not be read
    | InvalidData         // a line is not valid UTF-8

  /**
   * One line as the asynchronous line reader delivers it: decoded text
   * (without its terminator) or a byte sequence that is not UTF-8.
   */
  datatype RawLine = Decoded(text: string) | Undecodable

  predicate AllDecoded(raw: seq<RawLine>)
  {
    forall i | 0 <= i < |raw| :: raw[i].Decoded?
  }

  function Texts(raw: seq<RawLine>): seq<string>
    requires AllDecoded(raw)
  {
    seq(|raw|, i requires 0 <= i < |raw| => raw[i].text)
  }

  /** The trim-and-drop-blank step applied to a sequence of lines. */
  function Clean(lines: seq<string>): seq<string>
  {
    if lines == [] then []
    else
      var t := Trim(lines[|lines| - 1]);
      Clean(lines[..|lines| - 1]) + (if t == [] then [] else [t])
  }

  /** What `read_lines` returns for a given outcome of reading the file. */
  function ReadLinesResult(file: Result<seq<RawLine>, string>): Result<seq<string>, ReadError>
  {
    match file
    case Err(cause) => Err(Io(cause))
    case Ok(raw) => if AllDecoded(raw) then Ok(Clean(Texts(raw))) else Err(InvalidData)
  }

  /** The line stream `lines` over the bytes that were read; `next_line` advances it. */
  class LineReader {
    const raw: seq<RawLine>
    var pos: nat

    ghost predicate Valid()
      reads this
    {
      pos <= |raw|
    }

    constructor (raw: seq<RawLine>)
      ensures Valid() && this.raw == raw && pos == 0
    {
      this.raw := raw;
      pos := 0;
    }

    /** The next line, `None` at the end of the file, or an error for a line that is not UTF-8. */
    method NextLine() returns (r: Result<Option<string>, ReadError>)
      requires Valid()
      modifies this
      ensures Valid()
      ensures old(pos) == |raw| ==> r == Ok(None) && pos == old(pos)
      ensures old(pos) < |raw| ==> pos == old(pos) + 1
      ensures old(pos) < |raw| && raw[old(pos)].Decoded? ==> r == Ok(Some(raw[old(pos)].text))
      ensures old(pos) < |raw| && raw[old(pos)].Undecodable? ==> r == Err(InvalidData)
    {
      if pos == |raw| {
        return Ok(None);
      }
      var line := raw[pos];
      pos := pos + 1;
      match line
      case Decoded(text) => r := Ok(Some(text));
      case Undecodable => r := Err(InvalidData);
    }
  }

  /**
   * `read_lines`: `file` is the outcome of reading the whole file, as lines.
   * The loop pulls lines until the end, pushes the non-empty trimmed ones,
   * and gives up on the first undecodable line.
   */
  method ReadLines(file: Result<seq<RawLine>, string>) returns (r: Result<seq<string>, ReadError>)
    ensures r == ReadLinesResult(file)
  {
    if file.Err? {
      return Err(Io(file.error));
    }
    var raw := file.value;
    var lines := new LineReader(raw);
    var contents: seq<string> := [];
    var done := false;
    while !done
      invariant lines.Valid() && lines.raw == raw
      invariant AllDecoded(raw[..lines.pos])
      invariant contents == Clean(Texts(raw[..lines.pos]))
      invariant done ==> lines.pos == |raw|
      decreases |raw| - lines.pos, !done
    {
      ghost var before := lines.pos;
      var next := lines.NextLine();
      match next
      case Err(e) =>
        return Err(e);
      case Ok(None) =>
        done := true;
      case Ok(Some(line)) =>
        var trimmed := Trim(line);
        if trimmed != [] {
          contents := contents + [trimmed];
        }
        assert raw[..lines.pos] == raw[..before] + [raw[before]];
        assert Texts(raw[..lines.pos]) == Texts(raw[..before]) + [line];
    }
    assert raw[..lines.pos] == raw;
    r := Ok(contents);
  }

  /** Every kept line is non-empty and has no whitespace at either end. */
  lemma {:induction false} CleanElements(lines: seq<string>)
    ensures forall k | 0 <= k < |Clean(lines)| :: Clean(lines)[k] != [] && IsTrimmed(Clean(lines)[k])
  {
    if lines != [] {
      CleanElements(lines[..|lines| - 1]);
      TrimIsTrimmed(lines[|lines| - 1]);
    }
  }

  /** Cleaning never produces more lines than it was given. */
  lemma {:induction false} CleanLength(lines: seq<string>)
    ensures |Clean(lines)| <= |lines|
  {
    if lines != [] {
      CleanLength(lines[..|lines| - 1]);
    }
  }

  /** Cleaning yields nothing exactly when every line is blank or whitespace only. */
  lemma {:induction false} CleanEmptyIff(lines: seq<string>)
    ensures Clean(lines) == [] <==> forall i | 0 <= i < |lines| :: AllWhitespace(lines[i])
  {
    if lines != [] {
      var init, last := lines[..|lines| - 1], lines[|lines| - 1];
      CleanEmptyIff(init);
      TrimEmptyIff(last);
      if Clean(lines) == [] {
        assert Clean(init) == [] && Trim(last) == [];
        forall i | 0 <= i < |lines| ensures AllWhitespace(lines[i]) {
          if i < |lines| - 1 { assert lines[i] == init[i]; }
        }
      }
      if forall i | 0 <= i < |lines| :: AllWhitespace(lines[i]) {
        assert forall i | 0 <= i < |init| :: init[i] == lines[i];
        assert AllWhitespace(last);
      }
    }
  }

  /** Cleaning works line by line, so it distributes over concatenation. */
  lemma {:induction false} CleanAppend(a: seq<string>, b: seq<string>)
    ensures Clean(a + b) == Clean(a) + Clean(b)
    decreases |b|
  {
    if b == [] {
      assert a + b == a;
    } else {
      var b' := b[..|b| - 1];
      assert (a + b)[..|a + b| - 1] == a + b';
      CleanAppend(a, b');
    }
  }

  /** Cleaning the output of `read_lines` again changes nothing. */
  lemma {:induction false} CleanIdempotent(lines: seq<string>)
    ensures Clean(Clean(lines)) == Clean(lines)
  {
    if lines != [] {
      var init, t := lines[..|lines| - 1], Trim(lines[|lines| - 1]);
      CleanIdempotent(init);
      if t != [] {
        assert Clean(lines) == Clean(init) + [t];
        CleanAppend(Clean(init), [t]);
        TrimIdempotent(lines[|lines| - 1]);
        assert Clean([t]) == [t] by { assert [t][..0] == []; }
      } else {
        assert Clean(lines) == Clean(init);
      }
    }
  }

  /** The positions of the input lines that survive cleaning, in increasing order. */
  function KeptIndices(lines: seq<string>): seq<nat>
  {
    if lines == [] then []
    else
      var n := |lines| - 1;
      KeptIndices(lines[..n]) + (if Trim(lines[n]) == [] then [] else [n])
  }

  /** Kept positions are valid positions and strictly increase. */
  lemma {:induction false} KeptIndicesIncrease(lines: seq<string>)
    ensures forall k | 0 <= k < |KeptIndices(lines)| :: KeptIndices(lines)[k] < |lines|
    ensures forall k, l | 0 <= k < l < |KeptIndices(lines)| :: KeptIndices(lines)[k] < KeptIndices(lines)[l]
  {
    if lines != [] {
      var n := |lines| - 1;
      KeptIndicesIncrease(lines[..n]);
      var kept' := KeptIndices(lines[..n]);
      assert KeptIndices(lines) == kept' + (if Trim(lines[n]) == [] then [] else [n]);
      assert forall k | 0 <= k < |kept'| :: kept'[k] < n;
    }
  }

  /** A position is kept precisely when its trimmed line is non-empty. */
  lemma {:induction false} KeptIndicesMembership(lines: seq<string>)
    ensures forall i | 0 <= i < |lines| :: i in KeptIndices(lines) <==> Trim(lines[i]) != []
  {
    if lines != [] {
      var n := |lines| - 1;
      var init := lines[..n];
      KeptIndicesMembership(init);
      KeptIndicesIncrease(init);
      var kept := KeptIndices(lines);
      var kept' := KeptIndices(init);
      assert kept == kept' + (if Trim(lines[n]) == [] then [] else [n]);
      forall i | 0 <= i < |lines| ensures i in kept <==> Trim(lines[i]) != [] {
        if i < n {
          assert init[i] == lines[i];
          assert i in kept <==> i in kept';
        }
      }
    }
  }

  /** Output line `k` is the trimmed input line at the `k`-th kept position. */
  lemma {:induction false} KeptIndicesSelect(lines: seq<string>)
    ensures |KeptIndices(lines)| == |Clean(lines)|
    ensures forall k | 0 <= k < |KeptIndices(lines)| ::
      KeptIndices(lines)[k] < |lines| && Clean(lines)[k] == Trim(lines[KeptIndices(lines)[k]])
  {
    KeptIndicesIncrease(lines);
    if lines != [] {
      var n := |lines| - 1;
      var init := lines[..n];
      KeptIndicesSelect(init);
      KeptIndicesIncrease(init);
      var kept := KeptIndices(lines);
      var kept' := KeptIndices(init);
      forall k | 0 <= k < |kept'| ensures Clean(lines)[k] == Trim(lines[kept[k]]) {
        assert kept[k] == kept'[k];
        assert init[kept'[k]] == lines[kept'[k]];
      }
    }
  }

  /**
   * `Clean(lines)` is exactly the subsequence of trimmed lines that are not
   * empty: line `KeptIndices(lines)[k]` becomes output `k`, the positions
   * strictly increase (so the input order is kept and no line is used twice,
   * while equal lines each keep their own place), and a position is kept
   * precisely when its trimmed line is non-empty.
   */
  lemma {:induction false} CleanIsOrderedFilter(lines: seq<string>)
    ensures var kept := KeptIndices(lines);
      && |kept| == |Clean(lines)|
      && (forall k | 0 <= k < |kept| :: kept[k] < |lines| && Clean(lines)[k] == Trim(lines[kept[k]]))
      && (forall k, l | 0 <= k < l < |kept| :: kept[k] < kept[l])
      && (forall i | 0 <= i < |lines| :: i in kept <==> Trim(lines[i]) != [])
  {
    KeptIndicesIncrease(lines);
    KeptIndicesMembership(lines);
    KeptIndicesSelect(lines);
  }
}
