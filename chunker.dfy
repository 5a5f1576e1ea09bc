/*
 * The character-window chunker: fixed windows of `chunk_size` characters,
 * `chunk_size - overlap` apart, each stripped, whitespace-only ones dropped.
 */
module Chunker {
  import opened Common

  function Min(a: int, b: int): int { if a <= b then a else b }

  /** Window `i`: `text[i*S : min(i*S + chunk_size, len(text))]`. */
  function Window(text: string, size: nat, stride: nat, i: nat): (w: string)
    requires i * stride < |text|
    ensures |w| <= size
  {
    text[i * stride .. Min(i * stride + size, |text|)]
  }

  /**
   * The raw windows from `start` on: windows start at `start`, `start + S`,
   * ... while below `len(text)`, and each is at most `chunk_size` long.
   */
  function WindowsFrom(text: string, size: nat, stride: nat, start: nat): seq<string>
    requires stride > 0
    decreases |text| - start
  {
    if start >= |text| then [] else [text[start .. Min(start + size, |text|)]] + WindowsFrom(text, size, stride, start + stride)
  }

  /** Each window stripped and kept, tagged with the file path, only when not blank. */
  function Keep(filePath: string, ws: seq<string>): seq<(string, string)>
  {
    if ws == [] then []
    else
      var w := Strip(ws[0]);
      (if w != [] then [(filePath, w)] else []) + Keep(filePath, ws[1..])
  }

  /** What `split` returns for valid arguments, with S = chunk_size - overlap. */
  function Chunks(filePath: string, text: string, size: nat, stride: nat): seq<(string, string)>
    requires stride > 0
  {
    Keep(filePath, WindowsFrom(text, size, stride, 0))
  }

  /** The argument checks of `split`, in order. */
  function SizeError(chunkSize: int, overlap: int): (e: Option<Error>)
    ensures e.Some? <==> chunkSize <= 0 || overlap < 0 || overlap >= chunkSize
    ensures e.Some? ==> e.value.ValueError?
  {
    if chunkSize <= 0 then Some(ValueError("chunk_size must be positive"))
    else if overlap < 0 then Some(ValueError("overlap must be non-negative"))
    else if overlap >= chunkSize then Some(ValueError("overlap must be smaller than chunk_size"))
    else None
  }

  /** `Chunker.split(file_path, text, chunk_size, overlap)`. */
  method Split(filePath: string, text: string, chunkSize: int, overlap: int) returns (r: Result<seq<(string, string)>>)
    ensures r.Err? <==> chunkSize <= 0 || overlap < 0 || overlap >= chunkSize
    ensures r.Err? ==> r.error.ValueError? && Some(r.error) == SizeError(chunkSize, overlap)
    ensures r.Ok? ==> r.value == Chunks(filePath, text, chunkSize, chunkSize - overlap)
  {
    if chunkSize <= 0 {
      return Err(ValueError("chunk_size must be positive"));
    }
    if overlap < 0 {
      return Err(ValueError("overlap must be non-negative"));
    }
    if overlap >= chunkSize {
      return Err(ValueError("overlap must be smaller than chunk_size"));
    }
    var chunks := SlideWindows(filePath, text, chunkSize, chunkSize - overlap);
    return Ok(chunks);
  }

  /** The window loop of `split`, once the arguments are checked. */
  method SlideWindows(filePath: string, text: string, chunkSize: nat, stride: nat) returns (chunks: seq<(string, string)>)
    requires stride > 0
    ensures chunks == Chunks(filePath, text, chunkSize, stride)
  {
    chunks := [];
    var start := 0;
    var textLength := |text|;
    ghost var all := Chunks(filePath, text, chunkSize, stride);
    assert [] + all == all;
    while start < textLength
      invariant chunks + Keep(filePath, WindowsFrom(text, chunkSize, stride, start)) == all
      decreases textLength - start
    {
      var end := Min(start + chunkSize, textLength);
      var chunkText := Strip(text[start..end]);
      ghost var kept := if chunkText != [] then [(filePath, chunkText)] else [];
      ghost var rest := Keep(filePath, WindowsFrom(text, chunkSize, stride, start + stride));
      SlideStep(filePath, text, chunkSize, stride, start);
      ExtendChunks(chunks, kept, rest);
      if chunkText != [] {
        chunks := chunks + [(filePath, chunkText)];
      }
      assert chunks + rest == all;
      start := start + stride;
    }
  }

  /** One window of the loop: its stripped text, if not blank, then the chunks of the later windows. */
  lemma SlideStep(filePath: string, text: string, size: nat, stride: nat, start: nat)
    requires stride > 0 && start < |text|
    ensures var w := Strip(text[start .. Min(start + size, |text|)]);
      Keep(filePath, WindowsFrom(text, size, stride, start))
        == (if w != [] then [(filePath, w)] else []) + Keep(filePath, WindowsFrom(text, size, stride, start + stride))
  {
    var ws := WindowsFrom(text, size, stride, start);
    assert ws[1..] == WindowsFrom(text, size, stride, start + stride);
  }

  lemma ExtendChunks(chunks: seq<(string, string)>, kept: seq<(string, string)>, rest: seq<(string, string)>)
    ensures chunks + (kept + rest) == chunks + kept + rest
    ensures kept == [] ==> chunks + kept == chunks
  {
  }

  /** The `k`-th window from window `j` on is window `j + k`. */
  lemma {:induction false} WindowsFromAt(text: string, size: nat, stride: nat, j: nat, k: nat)
    requires stride > 0 && k < |WindowsFrom(text, size, stride, j * stride)|
    ensures (j + k) * stride < |text|
    ensures WindowsFrom(text, size, stride, j * stride)[k] == Window(text, size, stride, j + k)
    decreases k
  {
    assert (j + 1) * stride == j * stride + stride;
    if k > 0 {
      WindowsFromAt(text, size, stride, j + 1, k - 1);
      assert j + 1 + (k - 1) == j + k;
    }
  }

  /** A kept chunk carries the file path and is one of the windows, stripped and not blank. */
  lemma {:induction false} KeepMember(filePath: string, ws: seq<string>, c: (string, string))
    requires c in Keep(filePath, ws)
    ensures c.0 == filePath && c.1 != []
    ensures exists k :: 0 <= k < |ws| && c.1 == Strip(ws[k])
  {
    if c !in Keep(filePath, ws[1..]) {
      assert c.1 == Strip(ws[0]);
    } else {
      KeepMember(filePath, ws[1..], c);
      var k :| 0 <= k < |ws[1..]| && c.1 == Strip(ws[1..][k]);
      assert ws[1..][k] == ws[k + 1];
    }
  }

  /** At most one chunk per window. */
  lemma {:induction false} KeepAtMost(filePath: string, ws: seq<string>)
    ensures |Keep(filePath, ws)| <= |ws|
  {
    if ws != [] {
      KeepAtMost(filePath, ws[1..]);
    }
  }

  /**
   * Every chunk carries the file path and is a stripped window: non-blank,
   * at most `chunk_size` long, with no whitespace at either end, and equal to
   * stripped window `i` for some window `i`.
   */
  lemma ChunksAreStrippedWindows(filePath: string, text: string, size: nat, stride: nat, c: (string, string))
    requires stride > 0
    requires c in Chunks(filePath, text, size, stride)
    ensures c.0 == filePath
    ensures c.1 != [] && |c.1| <= size && !IsSpace(c.1[0]) && !IsSpace(c.1[|c.1| - 1])
    ensures exists i: nat :: i * stride < |text| && c.1 == Strip(Window(text, size, stride, i))
  {
    var ws := WindowsFrom(text, size, stride, 0);
    KeepMember(filePath, ws, c);
    var k :| 0 <= k < |ws| && c.1 == Strip(ws[k]);
    assert 0 * stride == 0;
    WindowsFromAt(text, size, stride, 0, k);
    var _, _ := StripIsSlice(ws[k]);
  }

  /** The number of windows over `len` characters `stride` apart: ceil(len / stride). */
  function WindowCount(len: int, stride: nat): nat
    requires stride > 0
    decreases len
  {
    if len <= 0 then 0 else 1 + WindowCount(len - stride, stride)
  }

  /** `WindowCount` is the ceiling of `len / stride`: `count * S < len + S`. */
  lemma {:induction false} WindowCountCeil(len: nat, stride: nat)
    requires stride > 0
    ensures WindowCount(len, stride) * stride < len + stride
    decreases len
  {
    if len > stride {
      WindowCountCeil(len - stride, stride);
      var c := WindowCount(len - stride, stride);
      assert (c + 1) * stride == c * stride + stride;
    } else if len > 0 {
      assert WindowCount(len - stride, stride) == 0;
    }
  }

  /** The windows from `start` on number ceil((len - start) / S). */
  lemma {:induction false} WindowsCount(text: string, size: nat, stride: nat, start: nat)
    requires stride > 0 && start <= |text|
    ensures |WindowsFrom(text, size, stride, start)| == WindowCount(|text| - start, stride)
    decreases |text| - start
  {
    if start < |text| {
      assert WindowCount(|text| - start, stride) == 1 + WindowCount(|text| - (start + stride), stride);
      if start + stride <= |text| {
        WindowsCount(text, size, stride, start + stride);
      }
    }
  }

  /**
   * At most one chunk per window: `count * S < len + S`, i.e. the count is at
   * most ceil(len / S).
   */
  lemma ChunkCountBound(filePath: string, text: string, size: nat, stride: nat)
    requires stride > 0
    ensures |Chunks(filePath, text, size, stride)| * stride < |text| + stride
  {
    KeepAtMost(filePath, WindowsFrom(text, size, stride, 0));
    WindowsCount(text, size, stride, 0);
    WindowCountCeil(|text|, stride);
    MulMono(|Chunks(filePath, text, size, stride)|, WindowCount(|text|, stride), stride);
  }

  lemma MulMono(a: nat, b: nat, k: nat)
    requires a <= b
    ensures a * k <= b * k
  {
  }

  /** Empty text gives no chunks. */
  lemma EmptyTextNoChunks(filePath: string, size: nat, stride: nat)
    requires stride > 0
    ensures Chunks(filePath, "", size, stride) == []
  {
  }

  /**
   * Text no longer than the stride `chunk_size - overlap` is one window: one
   * chunk, the stripped text, exactly when it is not blank.
   */
  lemma ShortText(filePath: string, text: string, size: nat, stride: nat)
    requires 0 < |text| <= stride <= size
    ensures Chunks(filePath, text, size, stride) == if AllSpace(text) then [] else [(filePath, Strip(text))]
  {
    assert text[0 .. Min(size, |text|)] == text;
    assert WindowsFrom(text, size, stride, stride) == [];
    assert WindowsFrom(text, size, stride, 0) == [text];
    assert [text][1..] == [];
    var one := if Strip(text) != [] then [(filePath, Strip(text))] else [];
    assert Keep(filePath, [text]) == one + [] == one;
    StripEmptyIff(text);
  }
}
