/** The size-query-then-fetch protocol of the C string getters. */
module StringBuffers {
  import opened Common

  const NUL: char := '\0'

  /** What a reader of a C string sees: everything before the first NUL. */
  function CString(s: seq<char>): (c: string)
    ensures |c| <= |s| && c == s[..|c|] && NUL !in c && (|c| < |s| ==> s[|c|] == NUL)
  {
    if s == [] || s[0] == NUL then [] else [s[0]] + CString(s[1..])
  }

  lemma {:induction false} CStringOf(c: string, rest: seq<char>)
    requires NUL !in c && (rest == [] || rest[0] == NUL)
    ensures CString(c + rest) == c
  {
    if c == [] {
      assert c + rest == rest;
    } else {
      assert (c + rest)[1..] == c[1..] + rest;
      CStringOf(c[1..], rest);
    }
  }

  /** `strncpy` (section 7.24.2.4 of ISO C11): at most n characters, the rest of the n filled with NULs. */
  method StrNCpy(dst: array<char>, src: string, n: nat)
    requires n <= dst.Length
    modifies dst
    ensures forall k :: 0 <= k < n ==> dst[k] == if k < |CString(src)| then src[k] else NUL
    ensures forall k :: n <= k < dst.Length ==> dst[k] == old(dst[k])
  {
    var len := |CString(src)|;
    var i := 0;
    while i < n
      invariant 0 <= i <= n
      invariant forall k :: 0 <= k < i ==> dst[k] == if k < len then src[k] else NUL
      invariant forall k :: i <= k < dst.Length ==> dst[k] == old(dst[k])
    {
      dst[i] := if i < len then src[i] else NUL;
      i := i + 1;
    }
  }

  /** The longest prefix of `s` that fits in n characters with its terminator. */
  function Fitting(s: string, n: nat): string
    requires n >= 1
  {
    if |s| < n then s else s[..n - 1]
  }

  /** `strncpy` and a forced terminator: afterwards the buffer reads as the longest prefix that fits.
      The terminator goes to index n - 1, so for n == 0 it is written outside the buffer. */
  method CopyOut(buffer: array<char>, s: string, n: nat) returns (overrun: bool)
    requires n <= buffer.Length
    modifies buffer
    ensures overrun <==> n == 0
    ensures !overrun ==> CString(buffer[..n]) == Fitting(CString(s), n)
    ensures !overrun ==> exists k :: 0 <= k < n && buffer[k] == NUL
    ensures forall k :: n <= k < buffer.Length ==> buffer[k] == old(buffer[k])
  {
    StrNCpy(buffer, s, n);
    overrun := n == 0;
    if !overrun {
      buffer[n - 1] := NUL;
      var c := Fitting(CString(s), n);
      assert buffer[..n] == c + buffer[|c|..n];
      CStringOf(c, buffer[|c|..n]);
    }
  }

  /** alljoyn_busobject_getname; a NULL buffer or a size of 0 only asks for the size. */
  method GetName(buffer: array?<char>, bufferSz: nat, name: string) returns (size: nat)
    requires buffer != null ==> bufferSz <= buffer.Length
    modifies buffer
    ensures size == |name| + 1
    ensures buffer != null && bufferSz > 0 ==> CString(buffer[..bufferSz]) == Fitting(CString(name), bufferSz)
    ensures buffer != null ==> forall k :: bufferSz <= k < buffer.Length ==> buffer[k] == old(buffer[k])
  {
    if buffer != null && bufferSz > 0 {
      var _ := CopyOut(buffer, name, bufferSz);
    }
    size := |name| + 1;
  }

  /** alljoyn_keystorelistener_getkeys: the status of GetKeys unless the sink is too small; a sink of
      size 0 is written to outside its bounds. */
  method GetKeys(sink: array?<char>, sinkSz: nat, keys: string, status: Status)
    returns (ret: Status, size: nat, overrun: bool)
    requires sink != null ==> sinkSz <= sink.Length
    modifies sink
    ensures size == |keys| + 1
    ensures ret == if sinkSz < |keys| + 1 then ER_BUFFER_TOO_SMALL else status
    ensures overrun <==> sink != null && sinkSz == 0
    ensures sink != null && !overrun ==> CString(sink[..sinkSz]) == Fitting(CString(keys), sinkSz)
    ensures sink != null ==> forall k :: sinkSz <= k < sink.Length ==> sink[k] == old(sink[k])
  {
    ret, overrun := status, false;
    if sink != null {
      overrun := CopyOut(sink, keys, sinkSz);
    }
    if sinkSz < |keys| + 1 {
      ret := ER_BUFFER_TOO_SMALL;
    }
    size := |keys| + 1;
  }

  /** alljoyn_interfacedescription_member_getannotation: true only if the annotation exists and a
      buffer was given; a size query answers false whether or not it exists.  The code tests the
      address of the size and not the size, so an existing annotation overruns a buffer of size 0. */
  method GetAnnotation(value: array?<char>, valueSz: nat, annotation: Option<string>)
    returns (found: bool, size: nat, overrun: bool)
    requires value != null ==> valueSz <= value.Length
    modifies value
    ensures size == (if annotation.Some? then |annotation.value| else 0) + 1
    ensures found <==> value != null && annotation.Some?
    ensures overrun <==> found && valueSz == 0
    ensures value != null && valueSz > 0 ==>
              CString(value[..valueSz]) == if annotation.Some? then Fitting(CString(annotation.value), valueSz) else ""
    ensures value != null ==> forall k :: valueSz <= k < value.Length ==> value[k] == old(value[k])
  {
    var out := if annotation.Some? then annotation.value else "";
    found, overrun := false, false;
    if value != null {
      if annotation.Some? {
        overrun := CopyOut(value, out, valueSz);
        found := true;
      } else if valueSz > 0 {
        value[0] := NUL;
      }
    }
    size := |out| + 1;
  }

  lemma SmallerCapacityTruncates(s: string, n: nat)
    requires 1 <= n && NUL !in s
    ensures Fitting(s, n) == s <==> n >= |s| + 1
    ensures Fitting(s, n) <= s && |Fitting(s, n)| == if n > |s| then |s| else n - 1
  {
  }

  /** Asking for the size and fetching with it returns what a reader sees of the string, which is the
      whole string if and only if it has no embedded NUL; and no capacity of less than that length
      and a terminator fetches as much. */
  method QueryThenFetch(name: string) returns (fetched: string)
    ensures fetched == CString(name)
    ensures fetched == name <==> NUL !in name
    ensures forall n :: 1 <= n ==> (Fitting(fetched, n) == fetched <==> n >= |fetched| + 1)
  {
    var size := GetName(null, 0, name);
    var buffer := new char[size];
    size := GetName(buffer, size, name);
    fetched := CString(buffer[..size]);
    if NUL !in name {
      CStringOf(name, []);
      assert name + [] == name;
    }
    forall n | 1 <= n ensures Fitting(fetched, n) == fetched <==> n >= |fetched| + 1 {
      SmallerCapacityTruncates(fetched, n);
    }
  }
}
