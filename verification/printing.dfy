/**
 * Types shared by the print-document model: status codes, page numbers,
 * page descriptions and the print-task options that hand them out.
 */
module Printing {

  /** Status codes returned across the runtime boundary:
      S_OK, E_INVALIDARG, E_FAIL and RPC_E_WRONG_THREAD. */
  datatype HResult = Ok | InvalidArg | Fail | WrongThread

  datatype Option<+T> = None | Some(value: T)

  /** An unsigned 32-bit page number or count. */
  type UInt32 = x: int | 0 <= x < 0x1_0000_0000

  /** The opaque identity of a runtime object the model only passes around
      (a device, a package target, a user handler). */
  type Handle = nat

  type Positive = r: real | r > 0.0 witness 1.0

  /** A page size in device-independent units. */
  datatype Size = Size(width: Positive, height: Positive)

  /** What the print-task options report for one page: its size and its DPI. */
  datatype PageDescription = PageDescription(pageSize: Size, dpiX: UInt32, dpiY: UInt32)

  /** The print-task options object of the print pipeline. Its only behaviour
      the model needs is GetPageDescription, a fixed function of the page number. */
  class PrintTaskOptions {
    const pageDescription: nat -> PageDescription

    constructor (pageDescription: nat -> PageDescription)
      ensures this.pageDescription == pageDescription
    {
      this.pageDescription := pageDescription;
    }
  }

  /** A prefix one longer is the shorter prefix and the next element. */
  lemma TakeSnoc<T>(s: seq<T>, i: nat)
    requires i < |s|
    ensures s[..i + 1] == s[..i] + [s[i]]
  {
  }

  lemma AppendAssoc<T>(a: seq<T>, b: seq<T>, c: seq<T>)
    ensures a + b + c == a + (b + c)
  {
  }

  /** A log that starts with `front + part` holds `part` right after `front`. */
  lemma PartAfter<T>(log: seq<T>, front: seq<T>, part: seq<T>)
    requires |front + part| <= |log| && log[..|front + part|] == front + part
    ensures |front| + |part| <= |log| && log[|front|..|front| + |part|] == part
  {
    forall k | 0 <= k < |part| ensures log[|front|..|front| + |part|][k] == part[k] {
      assert log[|front| + k] == (front + part)[|front| + k];
    }
  }

  /** A prefix of a prefix of a log is a prefix of the log. */
  lemma PrefixOfPrefix<T>(log: seq<T>, all: seq<T>, short: seq<T>)
    requires |all| <= |log| && log[..|all|] == all
    requires |short| <= |all| && all[..|short|] == short
    ensures log[..|short|] == short
  {
    assert log[..|short|] == log[..|all|][..|short|];
  }

  /** The elements of `s` that satisfy `p`, in their original order. */
  function Filter<T>(s: seq<T>, p: T -> bool): seq<T>
  {
    if s == [] then []
    else Filter(s[..|s| - 1], p) + (if p(s[|s| - 1]) then [s[|s| - 1]] else [])
  }

  /** Filter keeps exactly the elements that satisfy the predicate. */
  lemma {:induction false} FilterMembers<T>(s: seq<T>, p: T -> bool)
    ensures |Filter(s, p)| <= |s|
    ensures forall i :: 0 <= i < |Filter(s, p)| ==> Filter(s, p)[i] in s && p(Filter(s, p)[i])
    ensures forall i :: 0 <= i < |s| && p(s[i]) ==> s[i] in Filter(s, p)
  {
    if s != [] {
      var n := |s| - 1;
      FilterMembers(s[..n], p);
      var front := Filter(s[..n], p);
      var last := if p(s[n]) then [s[n]] else [];
      assert Filter(s, p) == front + last;
      forall i | 0 <= i < |Filter(s, p)| ensures Filter(s, p)[i] in s && p(Filter(s, p)[i]) {
        if i < |front| {
          assert Filter(s, p)[i] == front[i];
          assert front[i] in s[..n];
        }
      }
      forall i | 0 <= i < |s| && p(s[i]) ensures s[i] in Filter(s, p) {
        if i < n {
          assert s[i] == s[..n][i];
          assert s[i] in front;
        }
      }
    }
  }

  /** Filter on three consecutive parts, with each part of at most one element
      given outright. */
  lemma FilterParts<T>(a: seq<T>, b: seq<T>, c: seq<T>, p: T -> bool)
    requires |a| <= 1 && |c| <= 1
    ensures Filter(a + b + c, p) == Filter(a, p) + Filter(b, p) + Filter(c, p)
    ensures Filter(a, p) == (if a != [] && p(a[0]) then a else [])
    ensures Filter(c, p) == (if c != [] && p(c[0]) then c else [])
  {
    FilterAppend(a, b, p);
    FilterAppend(a + b, c, p);
    assert a != [] ==> a[..0] == [];
    assert c != [] ==> c[..0] == [];
  }

  /** Filter on a sequence of three elements, element by element. */
  lemma FilterThree<T>(a: T, b: T, c: T, p: T -> bool)
    ensures Filter([a, b, c], p) == (if p(a) then [a] else []) + (if p(b) then [b] else []) + (if p(c) then [c] else [])
  {
    var s := [a, b, c];
    assert s[..|s| - 1] == [a, b] && s[|s| - 1] == c;
    assert [a, b][..1] == [a] && [a, b][1] == b;
    assert [a][..0] == [];
    assert Filter([a], p) == (if p(a) then [a] else []);
    assert Filter([a, b], p) == Filter([a], p) + (if p(b) then [b] else []);
    assert Filter(s, p) == Filter([a, b], p) + (if p(c) then [c] else []);
  }

  lemma {:induction false} FilterAppend<T>(a: seq<T>, b: seq<T>, p: T -> bool)
    ensures Filter(a + b, p) == Filter(a, p) + Filter(b, p)
  {
    if b == [] {
      assert a + b == a;
    } else {
      var n := |b| - 1;
      var last := if p(b[n]) then [b[n]] else [];
      assert (a + b)[..|a + b| - 1] == a + b[..n];
      assert (a + b)[|a + b| - 1] == b[n];
      FilterAppend(a, b[..n], p);
      calc {
        Filter(a + b, p);
        Filter(a + b[..n], p) + last;
        (Filter(a, p) + Filter(b[..n], p)) + last;
        Filter(a, p) + (Filter(b[..n], p) + last);
        Filter(a, p) + Filter(b, p);
      }
    }
  }
}
