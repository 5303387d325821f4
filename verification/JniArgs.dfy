/** Packing the variable arguments of a JNI call by the method's descriptor, against the
    descriptors of sections 4.3.2 and 4.3.3 of The Java Virtual Machine Specification. */
module JniArgs {
  import opened Options

  // ------------------------------------------------------------------ descriptors

  datatype FieldType =
    | Byte | Char | Double | Float | Int | Long | Short | Boolean
    | Object(name: string)
    | Array(element: FieldType)

  /** A class name has no semicolon. */
  predicate WellFormed(f: FieldType) {
    match f
    case Object(name) => ';' !in name
    case Array(e) => WellFormed(e)
    case _ => true
  }

  /** The field descriptor of section 4.3.2. */
  function Print(f: FieldType): string {
    match f
    case Byte => "B"
    case Char => "C"
    case Double => "D"
    case Float => "F"
    case Int => "I"
    case Long => "J"
    case Short => "S"
    case Boolean => "Z"
    case Object(name) => "L" + name + ";"
    case Array(e) => "[" + Print(e)
  }

  function PrintAll(fs: seq<FieldType>): string {
    if fs == [] then "" else Print(fs[0]) + PrintAll(fs[1..])
  }

  /** The method descriptor of section 4.3.3, whatever the return descriptor is. */
  function MethodDescriptor(fs: seq<FieldType>, result: string): string { "(" + PrintAll(fs) + ")" + result }

  // -------------------------------------------------------------------- arguments

  /** An argument as C passes it through `...`: integers as int or long, floating point as
      double (by its bits), references as pointers. */
  datatype Arg = AnInt(i: int) | ALong(j: int) | ADouble(bits: nat) | APointer(p: nat)

  /** The type a vararg is drawn with and the jvalue member it is stored in. */
  datatype Kind = KInt | KLong | KFloat | KDouble | KPointer

  /** The jvalue member that was written; F holds the double that was narrowed. */
  datatype Slot = Unset | I(i: int) | J(j: int) | F(narrowed: nat) | D(bits: nat) | L(p: nat)

  predicate Drawable(k: Kind, a: Arg) {
    match k
    case KInt => a.AnInt?
    case KLong => a.ALong?
    case KFloat => a.ADouble?
    case KDouble => a.ADouble?
    case KPointer => a.APointer?
  }

  function Stored(k: Kind, a: Arg): Slot
    requires Drawable(k, a)
  {
    match k
    case KInt => I(a.i)
    case KLong => J(a.j)
    case KFloat => F(a.bits)
    case KDouble => D(a.bits)
    case KPointer => L(a.p)
  }

  /** The default argument promotions: what the caller passed for a parameter. */
  function KindOf(f: FieldType): Kind {
    match f
    case Byte => KInt
    case Char => KInt
    case Short => KInt
    case Boolean => KInt
    case Int => KInt
    case Long => KLong
    case Float => KFloat
    case Double => KDouble
    case Object(_) => KPointer
    case Array(_) => KPointer
  }

  // ---------------------------------------------------------------------- parsing

  /** The rest after the next semicolon, or nothing. */
  function PastObject(p: string): (r: string)
    ensures |r| <= |p| && (p != "" ==> |r| < |p|)
  {
    if p == "" then "" else if p[0] == ';' then p[1..] else PastObject(p[1..])
  }

  /** The rest after an array's element, its first bracket being gone. */
  function PastElement(p: string): (r: string)
    ensures |r| <= |p|
  {
    if p == "" then ""
    else if p[0] == '[' then PastElement(p[1..])
    else if p[0] == 'L' then PastObject(p)
    else p[1..]
  }

  /** What a descriptor that begins with `c` is drawn as. */
  function KindAt(c: char): Option<Kind> {
    if c == 'Z' || c == 'B' || c == 'C' || c == 'S' || c == 'I' then Some(KInt)
    else if c == 'J' then Some(KLong)
    else if c == 'F' then Some(KFloat)
    else if c == 'D' then Some(KDouble)
    else if c == 'L' || c == '[' then Some(KPointer)
    else None
  }

  /** The rest after one descriptor, or after one character that begins none. */
  function PastOne(p: string): (r: string)
    requires p != ""
    ensures |r| < |p|
  {
    if p[0] == 'L' then PastObject(p) else if p[0] == '[' then PastElement(p[1..]) else p[1..]
  }

  /** The varargs drawn for the parameter descriptors at `p`, `room` slots being left. */
  function Draws(p: string, room: nat): (k: seq<Kind>)
    ensures |k| <= room
    decreases |p|
  {
    if p == "" || p[0] == ')' || room == 0 then []
    else if KindAt(p[0]).Some? then [KindAt(p[0]).value] + Draws(PastOne(p), room - 1)
    else Draws(PastOne(p), room)
  }

  function Parameters(sig: string): string { if sig != "" && sig[0] == '(' then sig[1..] else sig }

  // -------------------------------------------------------------------- round trip

  lemma {:induction false} PastObjectIs(name: string, rest: string)
    requires ';' !in name
    ensures PastObject(name + ";" + rest) == rest
  {
    var p := name + ";" + rest;
    if name == "" {
      assert p[1..] == rest;
    } else {
      PastObjectIs(name[1..], rest);
      assert p[1..] == name[1..] + ";" + rest;
    }
  }

  lemma {:induction false} PastElementIs(f: FieldType, rest: string)
    requires WellFormed(f)
    ensures PastElement(Print(f) + rest) == rest
  {
    var p := Print(f) + rest;
    match f
    case Object(name) =>
      assert p == "L" + name + ";" + rest && ';' !in "L" + name;
      PastObjectIs("L" + name, rest);
      assert ("L" + name) + ";" + rest == p;
    case Array(e) =>
      PastElementIs(e, rest);
      assert p[1..] == Print(e) + rest;
    case _ =>
      assert p[1..] == rest;
  }

  /** One printed parameter is one draw of its kind, and nothing of it is left over. */
  lemma DrawsOne(f: FieldType, rest: string, room: nat)
    requires WellFormed(f) && room > 0
    ensures Draws(Print(f) + rest, room) == [KindOf(f)] + Draws(rest, room - 1)
  {
    var p := Print(f) + rest;
    match f
    case Object(name) =>
      PastObjectIs("L" + name, rest);
      assert ("L" + name) + ";" + rest == p;
    case Array(e) =>
      PastElementIs(e, rest);
      assert p[1..] == Print(e) + rest;
    case _ =>
      assert p[1..] == rest;
  }

  function Kinds(fs: seq<FieldType>): seq<Kind> { seq(|fs|, i requires 0 <= i < |fs| => KindOf(fs[i])) }

  function Min(a: nat, b: nat): nat { if a < b then a else b }

  lemma PrintHead(fs: seq<FieldType>, rest: string)
    requires fs != []
    ensures PrintAll(fs) + rest == Print(fs[0]) + (PrintAll(fs[1..]) + rest)
  {
    hide Print;
    assert (Print(fs[0]) + PrintAll(fs[1..])) + rest == Print(fs[0]) + (PrintAll(fs[1..]) + rest);
  }

  lemma KindsHead(fs: seq<FieldType>, n: nat)
    requires fs != [] && n <= |fs| - 1
    ensures [KindOf(fs[0])] + Kinds(fs[1..])[..n] == Kinds(fs)[..n + 1]
  {
    hide KindOf;
  }

  lemma {:induction false} DrawsAll(fs: seq<FieldType>, rest: string, room: nat)
    requires (forall f | f in fs :: WellFormed(f)) && rest != "" && rest[0] == ')'
    ensures Draws(PrintAll(fs) + rest, room) == Kinds(fs)[..Min(|fs|, room)]
  {
    if fs == [] {
      assert PrintAll(fs) + rest == rest;
    } else if room > 0 {
      hide WellFormed, Print, KindOf, Draws, PrintAll;
      PrintHead(fs, rest);
      DrawsOne(fs[0], PrintAll(fs[1..]) + rest, room);
      DrawsAll(fs[1..], rest, room - 1);
      KindsHead(fs, Min(|fs| - 1, room - 1));
    }
  }

  /** Packing against the printed descriptor draws exactly one vararg for each parameter,
      in order and with the promoted type of that parameter, up to the room there is. */
  lemma PackUndoesPrint(fs: seq<FieldType>, result: string, room: nat)
    requires forall f | f in fs :: WellFormed(f)
    ensures Draws(Parameters(MethodDescriptor(fs, result)), room) == Kinds(fs)[..Min(|fs|, room)]
  {
    var d := MethodDescriptor(fs, result);
    assert d[1..] == PrintAll(fs) + (")" + result);
    DrawsAll(fs, ")" + result, room);
  }

  /** Descriptors that are not well formed: a character that begins no type is passed over, a
      class name that does not end takes all the rest, and a closing parenthesis ends it all. */
  lemma DrawsOfAny(c: char, name: string, rest: string, room: nat)
    requires ';' !in name
    ensures c != ')' && KindAt(c).None? ==> Draws([c] + rest, room) == Draws(rest, room)
    ensures Draws("L" + name, room) == if room == 0 then [] else [KPointer]
    ensures Draws(")" + rest, room) == []
  {
    assert ([c] + rest)[1..] == rest;
    Unended("L" + name);
  }

  lemma {:induction false} Unended(name: string)
    requires ';' !in name
    ensures PastObject(name) == ""
  {
    if name == "" {
    } else {
      Unended(name[1..]);
    }
  }

  // ------------------------------------------------------------- what the callee reads

  /** A Java value; references by their pointer, floating point by the bits of the double it is
      passed as. */
  datatype Value = VInt(i: int) | VLong(j: int) | VFloat(bits: nat) | VDouble(bits: nat) | VRef(p: nat)

  predicate Typed(f: FieldType, v: Value) {
    match f
    case Long => v.VLong?
    case Float => v.VFloat?
    case Double => v.VDouble?
    case Object(_) => v.VRef?
    case Array(_) => v.VRef?
    case _ => v.VInt?
  }

  /** How the caller passes a value through `...`. */
  function Passed(v: Value): Arg {
    match v
    case VInt(i) => AnInt(i)
    case VLong(j) => ALong(j)
    case VFloat(bits) => ADouble(bits)
    case VDouble(bits) => ADouble(bits)
    case VRef(p) => APointer(p)
  }

  /** The value in the jvalue member of a parameter's type, if that is the member written. */
  function Member(f: FieldType, s: Slot): Option<Value> {
    match f
    case Long => if s.J? then Some(VLong(s.j)) else None
    case Float => if s.F? then Some(VFloat(s.narrowed)) else None
    case Double => if s.D? then Some(VDouble(s.bits)) else None
    case Object(_) => if s.L? then Some(VRef(s.p)) else None
    case Array(_) => if s.L? then Some(VRef(s.p)) else None
    case _ => if s.I? then Some(VInt(s.i)) else None
  }

  lemma MemberIs(f: FieldType, v: Value)
    requires Typed(f, v)
    ensures Drawable(KindOf(f), Passed(v)) && Member(f, Stored(KindOf(f), Passed(v))) == Some(v)
  {
  }

  function PassedAll(vs: seq<Value>): seq<Arg> { seq(|vs|, i requires 0 <= i < |vs| => Passed(vs[i])) }

  /** The whole trip: whatever values a caller passes for a method's parameters, the packed
      array holds them in order, each in the member its callee reads. */
  lemma CalleeReads(fs: seq<FieldType>, vs: seq<Value>, result: string, room: nat)
    requires |vs| == |fs| && forall i | 0 <= i < |fs| :: WellFormed(fs[i]) && Typed(fs[i], vs[i])
    ensures var kinds, args := Draws(Parameters(MethodDescriptor(fs, result)), room), PassedAll(vs);
      && |kinds| == Min(|fs|, room) && Supplies(args, kinds)
      && forall i | 0 <= i < |kinds| :: Member(fs[i], Stored(kinds[i], args[i])) == Some(vs[i])
  {
    PackUndoesPrint(fs, result, room);
    var kinds, args := Draws(Parameters(MethodDescriptor(fs, result)), room), PassedAll(vs);
    forall i | 0 <= i < |kinds|
      ensures Drawable(kinds[i], args[i]) && Member(fs[i], Stored(kinds[i], args[i])) == Some(vs[i])
    {
      MemberIs(fs[i], vs[i]);
    }
  }

  // -------------------------------------------------------------------- the packer

  /** The caller passed at least what is drawn, with those types. */
  predicate Supplies(args: seq<Arg>, kinds: seq<Kind>) {
    |kinds| <= |args| && forall i | 0 <= i < |kinds| :: Drawable(kinds[i], args[i])
  }

  /** What the loop still has to draw follows what it has drawn. */
  ghost predicate Splits(all: seq<Kind>, n: nat, rest: seq<Kind>) { n <= |all| && all[n..] == rest }

  lemma SplitEnds(all: seq<Kind>, n: nat)
    ensures Splits(all, 0, all) && (Splits(all, n, []) ==> n == |all|)
  {
    assert all[0..] == all;
  }

  lemma NextDraw(all: seq<Kind>, n: nat, k: Kind, rest: seq<Kind>)
    requires Splits(all, n, [k] + rest)
    ensures n < |all| && all[n] == k && Splits(all, n + 1, rest)
  {
    assert all[n] == all[n..][0];
    assert all[n + 1..] == all[n..][1..];
  }

  /** What one pass of the loop takes off what is left to draw. */
  lemma DrawsStep(all: seq<Kind>, n: nat, s: string, p: nat, room: nat)
    requires p < |s| && s[p] != ')' && room > 0 && Splits(all, n, Draws(s[p..], room))
    ensures KindAt(s[p]).Some? ==>
      n < |all| && all[n] == KindAt(s[p]).value && Splits(all, n + 1, Draws(PastOne(s[p..]), room - 1))
    ensures KindAt(s[p]).None? ==> Splits(all, n, Draws(PastOne(s[p..]), room))
  {
    assert s[p..][0] == s[p];
    if KindAt(s[p]).Some? { NextDraw(all, n, KindAt(s[p]).value, Draws(PastOne(s[p..]), room - 1)); }
    hide Splits, PastOne;
  }

  lemma DrawsEnd(all: seq<Kind>, n: nat, s: string, p: nat, room: nat)
    requires p <= |s| && (p == |s| || s[p] == ')' || room == 0) && Splits(all, n, Draws(s[p..], room))
    ensures n == |all|
  {
    assert Draws(s[p..], room) == [];
    SplitEnds(all, n);
  }

  /** The first `n` slots hold what was drawn for them, the others what was there before. */
  ghost predicate Filled(now: seq<Slot>, was: seq<Slot>, args: seq<Arg>, kinds: seq<Kind>, n: nat) {
    && Supplies(args, kinds) && n <= |kinds| <= |was| == |now|
    && (forall i | 0 <= i < n :: now[i] == Stored(kinds[i], args[i]))
    && (forall i | n <= i < |was| :: now[i] == was[i])
  }

  lemma FilledNext(now: seq<Slot>, was: seq<Slot>, args: seq<Arg>, kinds: seq<Kind>, n: nat)
    requires Filled(now, was, args, kinds, n) && n < |kinds|
    ensures n < |args| && n < |now| && Drawable(kinds[n], args[n])
    ensures Filled(now[n := Stored(kinds[n], args[n])], was, args, kinds, n + 1)
  {
  }

  /** tipsy_pack_jargs; a C string ends where the sequence does. */
  method PackJargs(sig: Option<string>, args: seq<Arg>, out: array?<Slot>, max: int) returns (n: nat)
    requires out != null ==> max <= out.Length
    requires sig.Some? && out != null && max > 0 ==> Supplies(args, Draws(Parameters(sig.value), max))
    modifies out
    ensures sig.None? || out == null || max <= 0 ==> n == 0 && (out != null ==> out[..] == old(out[..]))
    ensures sig.Some? && out != null && max > 0 ==>
      var kinds := Draws(Parameters(sig.value), max);
      && n == |kinds|
      && (forall i | 0 <= i < n :: out[i] == Stored(kinds[i], args[i]))
      && (forall i | n <= i < out.Length :: out[i] == old(out[i]))
  {
    n := 0;
    if sig.None? || out == null || max <= 0 {
      return;
    }
    var s, p := sig.value, 0;
    if p < |s| && s[p] == '(' {
      p := p + 1;
    }
    ghost var kinds, was := Draws(Parameters(s), max), out[..];
    SplitEnds(kinds, 0);
    n := PackFrom(s, p, args, out, max, kinds);
    assert forall i | 0 <= i < out.Length :: out[i] == out[..][i] && old(out[i]) == was[i];
  }

  /** The loop of tipsy_pack_jargs. */
  method PackFrom(s: string, start: nat, args: seq<Arg>, out: array<Slot>, max: nat, ghost kinds: seq<Kind>)
      returns (n: nat)
    requires start <= |s| && kinds == Draws(s[start..], max) && max <= out.Length && Supplies(args, kinds)
    modifies out
    ensures n == |kinds| && Filled(out[..], old(out[..]), args, kinds, n)
  {
    n := 0;
    var p := start;
    SplitEnds(kinds, 0);
    ghost var was := out[..];
    assert Filled(out[..], was, args, kinds, 0);
    hide Splits, PastOne, Draws, KindAt, Stored, Filled, Supplies;
    while p < |s| && s[p] != ')' && n < max
      invariant p <= |s| && n <= max <= out.Length && Splits(kinds, n, Draws(s[p..], max - n))
      invariant Filled(out[..], was, args, kinds, n)
      decreases |s| - p
    {
      p, n := PackNext(s, p, args, out, n, max, kinds, was);
    }
    DrawsEnd(kinds, n, s, p, max - n);
  }

  /** One pass of the loop. */
  method PackNext(s: string, start: nat, args: seq<Arg>, out: array<Slot>, from: nat, ghost max: nat,
      ghost kinds: seq<Kind>, ghost was: seq<Slot>) returns (p: nat, n: nat)
    requires start < |s| && s[start] != ')' && from < max <= out.Length
    requires Splits(kinds, from, Draws(s[start..], max - from)) && Filled(out[..], was, args, kinds, from)
    modifies out
    ensures start < p <= |s| && n <= max && Splits(kinds, n, Draws(s[p..], max - n))
    ensures Filled(out[..], was, args, kinds, n)
  {
    hide Splits, PastOne, Draws, KindAt, Stored, Filled;
    DrawsStep(kinds, from, s, start, max - from);
    if KindAt(s[start]).Some? {
      FilledNext(out[..], was, args, kinds, from);
    }
    p, n := PackOne(s, start, args, out, from);
  }

  /** The switch of tipsy_pack_jargs: one descriptor, or one character that begins none. */
  method PackOne(s: string, start: nat, args: seq<Arg>, out: array<Slot>, from: nat) returns (p: nat, n: nat)
    requires start < |s| && from < out.Length
    requires KindAt(s[start]).Some? ==> from < |args| && Drawable(KindAt(s[start]).value, args[from])
    modifies out
    ensures start < p <= |s| && s[p..] == PastOne(s[start..])
    ensures n == from + if KindAt(s[start]).Some? then 1 else 0
    ensures out[..] ==
      if KindAt(s[start]).Some? then old(out[..])[from := Stored(KindAt(s[start]).value, args[from])] else old(out[..])
  {
    p, n := start, from;
    assert s[start..][1..] == s[start + 1..];
    var c := s[p];
    if c == 'Z' || c == 'B' || c == 'C' || c == 'S' || c == 'I' {
      out[n] := I(args[n].i);
      n := n + 1;
      p := p + 1;
    } else if c == 'J' {
      out[n] := J(args[n].j);
      n := n + 1;
      p := p + 1;
    } else if c == 'F' {
      out[n] := F(args[n].bits);
      n := n + 1;
      p := p + 1;
    } else if c == 'D' {
      out[n] := D(args[n].bits);
      n := n + 1;
      p := p + 1;
    } else if c == 'L' {
      out[n] := L(args[n].p);
      n := n + 1;
      p := ScanObject(s, p);
    } else if c == '[' {
      out[n] := L(args[n].p);
      n := n + 1;
      p := ScanElement(s, p + 1);
    } else {
      p := p + 1;
    }
  }

  /** The loop past the semicolon of a class name. */
  method ScanObject(s: string, start: nat) returns (p: nat)
    requires start <= |s|
    ensures start <= p <= |s| && s[p..] == PastObject(s[start..]) && (start < |s| ==> start < p)
  {
    p := start;
    while p < |s| && s[p] != ';'
      invariant start <= p <= |s| && PastObject(s[p..]) == PastObject(s[start..])
    {
      assert s[p..][1..] == s[p + 1..];
      p := p + 1;
    }
    if p < |s| && s[p] == ';' {
      assert s[p..][1..] == s[p + 1..];
      p := p + 1;
    }
  }

  /** The loop over the further brackets of an array, and its element. */
  method ScanElement(s: string, start: nat) returns (p: nat)
    requires start <= |s|
    ensures start <= p <= |s| && s[p..] == PastElement(s[start..])
  {
    p := start;
    while p < |s| && s[p] == '['
      invariant start <= p <= |s| && PastElement(s[p..]) == PastElement(s[start..])
    {
      assert s[p..][1..] == s[p + 1..];
      p := p + 1;
    }
    if p < |s| && s[p] == 'L' {
      p := ScanObject(s, p);
    } else if p < |s| {
      assert s[p..][1..] == s[p + 1..];
      p := p + 1;
    }
  }
}
