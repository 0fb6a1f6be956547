/** The GLX extension-string search `isExtensionSupported`, the same
    function in client/Client_x11_ogl.cpp and pipeline/Pipeline_x11.cpp:
    is a name one of the space-separated words of an extension list?

    A C string is the sequence of characters before its terminating NUL,
    so the end of the sequence stands for the NUL and a pointer into a
    string is an index into it. Nothing here depends on the characters
    being other than NUL: every property holds for all sequences, C
    strings among them. */
module ExtensionSearch {
  import opened Wrappers

  /** `ext` occurs in `list` starting at index `i`. */
  predicate OccursAt(list: string, ext: string, i: int)
  {
    0 <= i && i + |ext| <= |list| && list[i..i + |ext|] == ext
  }

  /** `ext` occurs at `i` as a whole word: at the start of the list or
      after a space, and followed by a space or the end of the list. */
  predicate TokenAt(list: string, ext: string, i: int)
  {
    OccursAt(list, ext, i) &&
    (i == 0 || list[i - 1] == ' ') &&
    (i + |ext| == |list| || list[i + |ext|] == ' ')
  }

  /** A valid extension name, non-empty and free of spaces, that is one of
      the words of the list. */
  predicate Supported(list: string, ext: string)
  {
    ext != [] && ' ' !in ext && exists i :: 0 <= i <= |list| && TokenAt(list, ext, i)
  }

  /** `strstr(list + from, ext)`: the first occurrence of `ext` at or
      after `from`, or none. */
  function Strstr(list: string, ext: string, from: nat): (r: Option<nat>)
    requires from <= |list|
    ensures r.Some? ==> from <= r.value && OccursAt(list, ext, r.value)
    ensures r.Some? ==> forall j :: from <= j < r.value ==> !OccursAt(list, ext, j)
    ensures r.None? ==> forall j :: from <= j ==> !OccursAt(list, ext, j)
    decreases |list| - from
  {
    if from + |ext| > |list| then None
    else if list[from..from + |ext|] == ext then Some(from)
    else Strstr(list, ext, from + 1)
  }

  /** An occurrence that starts strictly inside an earlier occurrence of a
      name without spaces is preceded by a letter of that name, so it is
      no word. */
  lemma InsideOccurrenceNoToken(list: string, ext: string, w: nat, q: int)
    requires ' ' !in ext && OccursAt(list, ext, w) && w < q < w + |ext|
    ensures !TokenAt(list, ext, q)
  {
    assert list[q - 1] == list[w..w + |ext|][q - 1 - w] == ext[q - 1 - w];
  }

  /** When no word starts before `start` and the first occurrence from
      `start` on, at `w`, is no word either, no word starts before the
      end of that occurrence. */
  lemma NoTokenUpTo(list: string, ext: string, start: nat, w: nat)
    requires start <= |list| && ' ' !in ext
    requires forall i :: 0 <= i < start ==> !TokenAt(list, ext, i)
    requires Strstr(list, ext, start) == Some(w) && !TokenAt(list, ext, w)
    ensures forall i :: 0 <= i < w + |ext| ==> !TokenAt(list, ext, i)
  {
    forall i | 0 <= i < w + |ext|
      ensures !TokenAt(list, ext, i)
    {
      if w < i {
        InsideOccurrenceNoToken(list, ext, w, i);
      }
    }
  }

  /** The search with the word-start test as written (line 48): an
      occurrence counts as starting a word when it is at `start`, the
      point where the search resumed, even when `start` lies just after
      a rejected occurrence rather than after a space. */
  function ScanAsWritten(list: string, ext: string, start: nat): bool
    requires start <= |list| && ext != []
    decreases |list| - start
  {
    match Strstr(list, ext, start)
    case None => false
    case Some(w) =>
      var t := w + |ext|;
      if (w == start || list[w - 1] == ' ') && (t == |list| || list[t] == ' ') then true
      else ScanAsWritten(list, ext, t)
  }

  /** One round of the search as written: no occurrence ends it with
      false, an accepted occurrence with true, and a rejected one resumes
      it at the occurrence's end. */
  lemma ScanAsWrittenStep(list: string, ext: string, start: nat)
    requires start <= |list| && ext != []
    ensures Strstr(list, ext, start).None? ==> !ScanAsWritten(list, ext, start)
    ensures Strstr(list, ext, start).Some? ==>
      var w := Strstr(list, ext, start).value;
      var t := w + |ext|;
      t <= |list| &&
      ScanAsWritten(list, ext, start) ==
        if (w == start || list[w - 1] == ' ') && (t == |list| || list[t] == ' ') then true
        else ScanAsWritten(list, ext, t)
  {
  }

  /** One pass of the loop of `isExtensionSupported` as written (lines
      41-52): look for the next occurrence from `start`; the search ends
      when there is none or when it passes the word test, and otherwise
      resumes at the occurrence's end. */
  method SearchRound(list: string, ext: string, start: nat) returns (done: bool, found: bool, next: nat)
    requires start <= |list| && ext != []
    ensures done ==> found == ScanAsWritten(list, ext, start)
    ensures !done ==> start < next <= |list| && ScanAsWritten(list, ext, next) == ScanAsWritten(list, ext, start)
  {
    ScanAsWrittenStep(list, ext, start);
    var where := Strstr(list, ext, start);
    if where.None? {
      return true, false, start;
    }
    var terminator := where.value + |ext|;
    if where.value == start || list[where.value - 1] == ' ' {
      if terminator == |list| || list[terminator] == ' ' {
        return true, true, start;
      }
    }
    return false, false, terminator;
  }

  /** `isExtensionSupported` as written (lines 28-56 of
      client/Client_x11_ogl.cpp). */
  method IsExtensionSupportedAsWritten(list: string, ext: string) returns (b: bool)
    ensures b <==> ext != [] && ' ' !in ext && ScanAsWritten(list, ext, 0)
  {
    if ' ' in ext || ext == [] {
      return false;
    }
    ghost var answer := ScanAsWritten(list, ext, 0);
    var start := 0;
    while true
      invariant start <= |list|
      invariant ScanAsWritten(list, ext, start) == answer
      decreases |list| - start
    {
      var done, found, next := SearchRound(list, ext, start);
      if done {
        return found;
      }
      start := next;
    }
  }

  /** As written, the search finds `"a"` in the list `"aa"`, whose only
      word is `"aa"`: the first occurrence is rejected, the search resumes
      right after it, and the second occurrence, being at the resume
      point, passes for the start of a word. */
  lemma AsWrittenAcceptsRunTogetherNames()
    ensures ScanAsWritten("aa", "a", 0)
    ensures !Supported("aa", "a")
  {
    assert Strstr("aa", "a", 0) == Some(0);
    assert Strstr("aa", "a", 1) == Some(1);
    forall i | 0 <= i <= 2
      ensures !TokenAt("aa", "a", i)
    {
    }
  }

  /** As written, the search never misses a word: every list in which the
      name is a word is accepted. */
  lemma {:induction false} AsWrittenFindsEveryToken(list: string, ext: string, start: nat)
    requires start <= |list| && ext != [] && ' ' !in ext
    requires forall i :: 0 <= i < start ==> !TokenAt(list, ext, i)
    requires exists i :: 0 <= i <= |list| && TokenAt(list, ext, i)
    ensures ScanAsWritten(list, ext, start)
    decreases |list| - start
  {
    assert Strstr(list, ext, start).Some? by {
      var k :| 0 <= k <= |list| && TokenAt(list, ext, k);
      assert start <= k && OccursAt(list, ext, k);
    }
    var w := Strstr(list, ext, start).value;
    var t := w + |ext|;
    ScanAsWrittenStep(list, ext, start);
    if !((w == start || list[w - 1] == ' ') && (t == |list| || list[t] == ' ')) {
      assert forall i :: 0 <= i < t ==> !TokenAt(list, ext, i) by {
        assert !TokenAt(list, ext, w);
        NoTokenUpTo(list, ext, start, w);
      }
      AsWrittenFindsEveryToken(list, ext, t);
    }
  }

  /** `isExtensionSupported` with the word-start test the comment at
      lines 37-39 intends: an occurrence starts a word at the beginning of
      the whole list or after a space. It answers exactly whether the name
      is a word of the list; an empty name or one with a space is never
      supported (lines 33-35). */
  method IsExtensionSupported(list: string, ext: string) returns (b: bool)
    ensures b <==> Supported(list, ext)
  {
    if ' ' in ext || ext == [] {
      return false;
    }
    var start := 0;
    while true
      invariant start <= |list|
      invariant forall i :: 0 <= i < start ==> !TokenAt(list, ext, i)
      decreases |list| - start
    {
      var where := Strstr(list, ext, start);
      if where.None? {
        break;
      }
      var w := where.value;
      var terminator := w + |ext|;
      if w == 0 || list[w - 1] == ' ' {
        if terminator == |list| || list[terminator] == ' ' {
          assert TokenAt(list, ext, w);
          return true;
        }
      }
      NoTokenUpTo(list, ext, start, w);
      start := terminator;
    }
    return false;
  }
}
