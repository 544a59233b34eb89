/** Conversion between AllJoyn message arguments and JavaScript values. */
module ValueConversion {
  import opened Common
  import StringBuffers

  /** A JavaScript number or an IEEE double. */
  datatype Num = Finite(r: real) | NegativeZero | PositiveInfinity | NegativeInfinity | NaN

  datatype Js =
    | JsString(s: string)
    | JsNumber(n: Num)
    | JsBoolean(b: bool)
    | JsBooleanObject(b: bool)
    | JsObject(fields: map<nat, Js>)
    | JsOther

  datatype MsgArg =
    | Boolean(b: bool) | String(s: string)
    | Int16(i: int) | Int32(i: int) | UInt16(i: int) | UInt32(i: int)
    | Double(n: Num)
    | Struct(members: seq<MsgArg>)
    | Int64(i: int) | UInt64(i: int) | OtherType(typeId: int)

  // ---------------------------------------------------------------- arguments to JavaScript

  /** The value `msgArgToObject` stores for an argument, or nothing for one it does not handle. */
  function Decode(arg: MsgArg): Option<Js> {
    match arg
    case Boolean(b) => Some(JsBoolean(b))
    case String(s) => Some(JsString(s))
    case Int16(i) => Some(JsNumber(Finite(i as real)))
    case Int32(i) => Some(JsNumber(Finite(i as real)))
    case UInt16(i) => Some(JsNumber(Finite(i as real)))
    case UInt32(i) => Some(JsNumber(Finite(i as real)))
    case Double(n) => Some(JsNumber(n))
    case Struct(members) => if members == [] then None else Some(JsObject(Fields(members)))
    case _ => None
  }

  /** The object made of a list of arguments: argument k under key k, unhandled ones left out. */
  function Fields(args: seq<MsgArg>): (fields: map<nat, Js>)
    ensures forall k: nat :: k in fields <==> k < |args| && Decode(args[k]).Some?
    ensures forall k: nat :: k in fields ==> Decode(args[k]) == Some(fields[k])
  {
    if args == [] then map[] else
      var n := |args| - 1;
      assert forall k :: 0 <= k < n ==> args[..n][k] == args[k];
      Put(Fields(args[..n]), n, Decode(args[n]))
  }

  function Put(fields: map<nat, Js>, k: nat, v: Option<Js>): map<nat, Js> {
    if v.Some? then fields[k := v.value] else fields
  }

  /** `msgArgToObject`: recursion over struct members, with a loop that fills the inner object. */
  method MsgArgToObject(arg: MsgArg, index: nat, out: map<nat, Js>) returns (out': map<nat, Js>)
    ensures out' == Put(out, index, Decode(arg))
    decreases arg
  {
    out' := out;
    match arg
    case Struct(members) =>
      if |members| > 0 {
        var inner: map<nat, Js> := map[];
        var ix := 0;
        while ix < |members|
          invariant 0 <= ix <= |members| && inner == Fields(members[..ix])
        {
          inner := MsgArgToObject(members[ix], ix, inner);
          assert members[..ix + 1][..ix] == members[..ix];
          ix := ix + 1;
        }
        assert members[..ix] == members;
        out' := out'[index := JsObject(inner)];
      }
    case Boolean(b) => out' := out'[index := JsBoolean(b)];
    case String(s) => out' := out'[index := JsString(s)];
    case Int16(i) => out' := out'[index := JsNumber(Finite(i as real))];
    case Int32(i) => out' := out'[index := JsNumber(Finite(i as real))];
    case UInt16(i) => out' := out'[index := JsNumber(Finite(i as real))];
    case UInt32(i) => out' := out'[index := JsNumber(Finite(i as real))];
    case Double(n) => out' := out'[index := JsNumber(n)];
    case _ =>
  }

  /** The argument loop of `signal_callback`: GetArg until NULL. */
  method MessageToObject(args: seq<MsgArg>) returns (msg: map<nat, Js>)
    ensures msg == Fields(args)
  {
    msg := map[];
    var msgIndex := 0;
    while msgIndex < |args|
      invariant 0 <= msgIndex <= |args| && msg == Fields(args[..msgIndex])
    {
      msg := MsgArgToObject(args[msgIndex], msgIndex, msg);
      assert args[..msgIndex + 1][..msgIndex] == args[..msgIndex];
      msgIndex := msgIndex + 1;
    }
    assert args[..msgIndex] == args;
  }

  /** Walking into nested structs, and into nested objects. */
  function ArgAt(arg: MsgArg, path: seq<nat>): Option<MsgArg> {
    if path == [] then Some(arg)
    else if arg.Struct? && path[0] < |arg.members| then ArgAt(arg.members[path[0]], path[1..])
    else None
  }

  function JsAt(v: Option<Js>, path: seq<nat>): Option<Js>
    decreases path
  {
    if path == [] then v
    else if v.Some? && v.value.JsObject? && path[0] in v.value.fields
    then JsAt(Some(v.value.fields[path[0]]), path[1..])
    else None
  }

  /** Decoding commutes with every walk: at each path JavaScript sees exactly the decoding of the
      argument at that path, and nothing where the argument is missing or not handled. */
  lemma {:induction false} DecodePreservesStructure(arg: MsgArg, path: seq<nat>)
    ensures JsAt(Decode(arg), path) == (var a := ArgAt(arg, path); if a.None? then None else Decode(a.value))
    decreases path
  {
    if path != [] {
      if arg.Struct? && path[0] < |arg.members| {
        DecodePreservesStructure(arg.members[path[0]], path[1..]);
        if Decode(arg.members[path[0]]).None? {
          NothingBelow(arg.members[path[0]], path[1..]);
        }
      }
    }
  }

  /** Below an argument that is not handled there is nothing to decode. */
  lemma NothingBelow(arg: MsgArg, path: seq<nat>)
    requires Decode(arg).None?
    ensures var a := ArgAt(arg, path); a.None? || Decode(a.value).None?
  {
  }

  /** A key is present exactly for supported scalars and non-empty structs. */
  lemma KeyPresentIff(args: seq<MsgArg>, k: nat)
    ensures k in Fields(args) <==>
              && k < |args| && !args[k].Int64? && !args[k].UInt64? && !args[k].OtherType?
              && (args[k].Struct? ==> args[k].members != [])
  {
    if k < |args| { HandledIff(args[k]); }
  }

  lemma HandledIff(arg: MsgArg)
    ensures Decode(arg).Some? <==>
              !arg.Int64? && !arg.UInt64? && !arg.OtherType? && (arg.Struct? ==> arg.members != [])
  {
  }

  // ---------------------------------------------------------------- the same value on both sides

  /** The integer of an argument of one of the handled integer types. */
  function IntegerOf(arg: MsgArg): Option<int> {
    match arg
    case Int16(i) => Some(i)
    case UInt16(i) => Some(i)
    case Int32(i) => Some(i)
    case UInt32(i) => Some(i)
    case _ => None
  }

  /** JavaScript sees the value of the argument: the same truth value, text or number, for an integer of
      any width the number equal to it; for a struct an object with, under each index, the value of the
      member there, and no key where the member has none. */
  ghost predicate SameValue(arg: MsgArg, v: Js)
    decreases arg
  {
    if arg.Boolean? then v.JsBoolean? && v.b == arg.b
    else if arg.String? then v.JsString? && v.s == arg.s
    else if IntegerOf(arg).Some? then v.JsNumber? && v.n.Finite? && v.n.r == IntegerOf(arg).value as real
    else if arg.Double? then v.JsNumber? && v.n == arg.n
    else if arg.Struct? then
      && arg.members != [] && v.JsObject?
      && (forall k: nat :: k in v.fields ==> k < |arg.members| && SameValue(arg.members[k], v.fields[k]))
      && (forall k: nat :: k < |arg.members| && k !in v.fields ==> Decode(arg.members[k]).None?)
    else false
  }

  /** What is stored for an argument is its value ... */
  lemma {:induction false} DecodedIsSame(arg: MsgArg)
    requires Decode(arg).Some?
    ensures SameValue(arg, Decode(arg).value)
    decreases arg
  {
    if arg.Struct? {
      var fields := Fields(arg.members);
      forall k: nat | k in fields ensures k < |arg.members| && SameValue(arg.members[k], fields[k]) {
        DecodedIsSame(arg.members[k]);
      }
    }
  }

  /** ... and nothing else is. */
  lemma {:induction false} SameIsDecoded(arg: MsgArg, v: Js)
    requires SameValue(arg, v)
    ensures Decode(arg) == Some(v)
    decreases arg
  {
    if arg.Struct? {
      var fields := Fields(arg.members);
      forall k: nat | k in v.fields ensures k in fields && fields[k] == v.fields[k] {
        SameIsDecoded(arg.members[k], v.fields[k]);
      }
      assert fields.Keys == v.fields.Keys;
      assert fields == v.fields;
    }
  }

  /** The object JavaScript gets for a list of arguments has the value of argument k under key k, and no
      key exactly where the argument is not handled. */
  lemma MessageShowsValues(args: seq<MsgArg>, k: nat)
    ensures k in Fields(args) ==> k < |args| && SameValue(args[k], Fields(args)[k])
    ensures k < |args| && IntegerOf(args[k]).Some? ==>
              k in Fields(args) && Fields(args)[k] == JsNumber(Finite(IntegerOf(args[k]).value as real))
  {
    if k in Fields(args) {
      DecodedIsSame(args[k]);
    }
  }

  /** Integers of every handled width reach JavaScript alike. */
  lemma IntegersDecodeAlike(i: int)
    ensures Decode(Int16(i)) == Decode(UInt16(i)) == Decode(Int32(i)) == Decode(UInt32(i))
  {
  }

  // ---------------------------------------------------------------- JavaScript to arguments

  predicate IsInt32(n: Num) {
    n.Finite? && n.r == n.r.Floor as real && -2147483648.0 <= n.r <= 2147483647.0
  }

  /** `objToMsgArg`; `None` where the function falls off its end without a value.  A string goes
      through a C string, and a Boolean object is truthy whatever it wraps. */
  function Encode(v: Js): Option<MsgArg> {
    match v
    case JsString(s) => Some(String(StringBuffers.CString(s)))
    case JsNumber(n) => if IsInt32(n) then Some(Int32(n.r.Floor)) else Some(Double(n))
    case JsBoolean(b) => Some(Boolean(b))
    case JsBooleanObject(_) => Some(Boolean(true))
    case _ => None
  }

  /** A value survives encoding and decoding if and only if it is a number, a primitive boolean, or
      a string without NUL characters. */
  lemma RoundTripIff(v: Js)
    ensures (Encode(v).Some? && Decode(Encode(v).value) == Some(v))
            <==> (v.JsNumber? || v.JsBoolean? || (v.JsString? && StringBuffers.NUL !in v.s))
  {
    if v.JsString? && StringBuffers.NUL !in v.s {
      StringBuffers.CStringOf(v.s, []);
      assert v.s + [] == v.s;
    }
  }

  /** Which argument a value goes out as: a number that is a 32-bit integer as an Int32 of that value, any
      other number as the same Double, and never the other way round; both Boolean objects as true. */
  lemma EncodesAs(v: Js, i: int, n: Num)
    ensures Encode(v).None? <==> v.JsObject? || v.JsOther?
    ensures Encode(v) == Some(Int32(i)) <==> v == JsNumber(Finite(i as real)) && -0x8000_0000 <= i < 0x8000_0000
    ensures Encode(v) == Some(Double(n)) <==> v == JsNumber(n) && forall j :: Encode(v) != Some(Int32(j))
    ensures Encode(v).Some? && Encode(v).value.Boolean? <==> v.JsBoolean? || v.JsBooleanObject?
    ensures v.JsBooleanObject? ==> Encode(v) == Encode(JsBoolean(true))
  {
    if v.JsNumber? && IsInt32(v.n) {
      assert v.n == Finite(v.n.r.Floor as real);
    }
  }
}
