/**
 * The permission bitmask algebra of the assertion library: folding a list of
 * permission tokens into a 3-bit mask (read = 4, write = 2, delete = 1) and
 * rendering a mask as text.
 */
module Permissions {
  import opened Wrappers

  const NONE := 0
  const DELETE := 1
  const WRITE := 2
  const WRITE_DELETE := 3
  const READ := 4
  const READ_DELETE := 5
  const READ_WRITE := 6
  const READ_WRITE_DELETE := 7

  /** The three single-bit permissions. */
  predicate IsBit(b: int) {
    b == READ || b == WRITE || b == DELETE
  }

  /**
   * A value handed to addPermissions: an integer, a string, or any other
   * JavaScript value (a non-integral number, an object, undefined, ...).
   */
  datatype Token = Num(n: int) | Str(s: string) | Other

  /** What a token does to the mask once it has been matched. */
  datatype Action = Grant(bit: int) | Reset | Ignore

  function LowerChar(c: char): (r: char)
    ensures 'A' <= c <= 'Z' ==> 'a' <= r <= 'z'
    ensures !('A' <= c <= 'Z') ==> r == c
  {
    if 'A' <= c <= 'Z' then (c as int + 32) as char else c
  }

  /** String.prototype.toLowerCase, on the letters A to Z. */
  function Lower(s: string): (r: string)
    ensures |r| == |s|
    ensures forall i :: 0 <= i < |s| ==> r[i] == LowerChar(s[i])
  {
    if s == [] then [] else [LowerChar(s[0])] + Lower(s[1..])
  }

  lemma {:induction false} LowerIdempotent(s: string)
    ensures Lower(Lower(s)) == Lower(s)
  {
    if s != [] {
      LowerIdempotent(s[1..]);
      assert Lower(s)[1..] == Lower(s[1..]);
    }
  }

  /**
   * The switch of addPermissions: strings are lower-cased first, integers
   * match only the integer cases (strict equality), anything else falls
   * through to the default branch.
   */
  function Classify(t: Token): (a: Action)
    ensures a.Grant? ==> IsBit(a.bit)
    ensures t.Num? ==> (a.Grant? <==> IsBit(t.n)) && (a.Grant? ==> a.bit == t.n) && (a.Reset? <==> t.n == NONE)
    ensures t.Str? ==> (a == Grant(READ) <==> Lower(t.s) in {"r", "read"})
                       && (a == Grant(WRITE) <==> Lower(t.s) in {"w", "write"})
                       && (a == Grant(DELETE) <==> Lower(t.s) in {"d", "delete"})
                       && (a == Reset <==> Lower(t.s) in {"n", "none"})
    ensures t.Other? ==> a == Ignore
  {
    match t
    case Num(n) =>
      if n == READ then Grant(READ)
      else if n == DELETE then Grant(DELETE)
      else if n == WRITE then Grant(WRITE)
      else if n == NONE then Reset
      else Ignore
    case Str(s) =>
      var l := Lower(s);
      if l == "r" || l == "read" then Grant(READ)
      else if l == "d" || l == "delete" then Grant(DELETE)
      else if l == "w" || l == "write" then Grant(WRITE)
      else if l == "n" || l == "none" then Reset
      else Ignore
    case Other => Ignore
  }

  /** String tokens are matched without regard to case. */
  lemma ClassifyIgnoresCase(s: string)
    ensures Classify(Str(s)) == Classify(Str(Lower(s)))
  {
    LowerIdempotent(s);
  }

  /** `(mask & bit) == bit`: the bit is set in the two's-complement mask. */
  predicate HasBit(mask: int, bit: int)
    requires IsBit(bit)
  {
    (mask / bit) % 2 == 1
  }

  /** Adds `bit` to the mask unless it is already present. */
  function AddBit(mask: int, bit: int): int
    requires IsBit(bit)
  {
    if HasBit(mask, bit) then mask else mask + bit
  }

  /** One iteration of the forEach loop of addPermissions. */
  function Step(mask: int, t: Token): int {
    match Classify(t)
    case Grant(b) => AddBit(mask, b)
    case Reset => NONE
    case Ignore => mask
  }

  /** A falsy starting mask (undefined or 0) counts as 0. */
  function Start(current: Option<int>): (m: int)
    ensures current.None? ==> m == NONE
    ensures current.Some? ==> m == current.value
  {
    match current
    case None => NONE
    case Some(c) => if c == 0 then NONE else c
  }

  /** The mask after applying the tokens from left to right. */
  function Combine(mask: int, tokens: seq<Token>): int {
    if tokens == [] then mask
    else Step(Combine(mask, tokens[..|tokens| - 1]), tokens[|tokens| - 1])
  }

  /**
   * addPermissions: starts from the current mask (0 when falsy) and applies
   * each token in turn.
   */
  method AddPermissions(current: Option<int>, tokens: seq<Token>) returns (mask: int)
    ensures mask == Combine(Start(current), tokens)
  {
    mask := if current.None? || current.value == 0 then NONE else current.value;
    for i := 0 to |tokens|
      invariant mask == Combine(Start(current), tokens[..i])
    {
      assert tokens[..i + 1][..i] == tokens[..i];
      var t := tokens[i];
      match Classify(t)
      case Grant(b) =>
        if (mask / b) % 2 != 1 {
          mask := mask + b;
        }
      case Reset =>
        mask := NONE;
      case Ignore =>
    }
    assert tokens[..|tokens|] == tokens;
  }

  // ---------------------------------------------------------------------
  // Bit-level facts

  /** Adding a bit to a mask in [0,7] is the bitwise or. */
  lemma AddBitIsOr(mask: int, bit: int)
    requires 0 <= mask <= 7 && IsBit(bit)
    ensures AddBit(mask, bit) == (mask as bv3 | bit as bv3) as int
  {
    if mask == 0 {} else if mask == 1 {} else if mask == 2 {} else if mask == 3 {}
    else if mask == 4 {} else if mask == 5 {} else if mask == 6 {} else {}
  }

  /** Bits of a mask live in its low three bits. */
  lemma HasBitLow(mask: int, bit: int)
    requires IsBit(bit)
    ensures HasBit(mask, bit) == HasBit(mask % 8, bit)
  {
    var q, r := mask / 8, mask % 8;
    assert mask == 8 * q + r;
    if bit == 1 {
      assert mask / 1 == 2 * (4 * q) + r / 1;
    } else if bit == 2 {
      assert mask / 2 == 2 * (2 * q) + r / 2;
    } else {
      assert mask / 4 == 2 * q + r / 4;
    }
  }

  /** Adding a bit changes only the low three bits. */
  lemma AddBitLow(mask: int, bit: int)
    requires IsBit(bit)
    ensures AddBit(mask, bit) / 8 == mask / 8
    ensures AddBit(mask, bit) % 8 == AddBit(mask % 8, bit)
  {
    HasBitLow(mask, bit);
    var q, r := mask / 8, mask % 8;
    assert mask == 8 * q + r;
    if !HasBit(mask, bit) {
      assert !HasBit(r, bit);
      assert r + bit < 8 by {
        if r == 0 {} else if r == 1 {} else if r == 2 {} else if r == 3 {}
        else if r == 4 {} else if r == 5 {} else if r == 6 {} else {}
      }
      assert mask + bit == 8 * q + (r + bit);
    }
  }

  /** A mask is determined by its high part and its low three bits. */
  lemma SameLowAndHigh(x: int, y: int)
    requires x / 8 == y / 8 && x % 8 == y % 8
    ensures x == y
  {
  }

  lemma AddBitIdempotent(mask: int, bit: int)
    requires IsBit(bit)
    ensures AddBit(AddBit(mask, bit), bit) == AddBit(mask, bit)
    ensures HasBit(AddBit(mask, bit), bit)
  {
    AddBitLow(mask, bit);
    HasBitLow(AddBit(mask, bit), bit);
    var r := mask % 8;
    if r == 0 {} else if r == 1 {} else if r == 2 {} else if r == 3 {}
    else if r == 4 {} else if r == 5 {} else if r == 6 {} else {}
  }

  lemma AddBitCommutes(mask: int, a: int, b: int)
    requires IsBit(a) && IsBit(b)
    ensures AddBit(AddBit(mask, a), b) == AddBit(AddBit(mask, b), a)
  {
    var x := AddBit(AddBit(mask, a), b);
    var y := AddBit(AddBit(mask, b), a);
    AddBitLow(mask, a);
    AddBitLow(mask, b);
    AddBitLow(AddBit(mask, a), b);
    AddBitLow(AddBit(mask, b), a);
    var r := mask % 8;
    assert x % 8 == AddBit(AddBit(r, a), b);
    assert y % 8 == AddBit(AddBit(r, b), a);
    assert AddBit(AddBit(r, a), b) == AddBit(AddBit(r, b), a) by {
      if r == 0 {} else if r == 1 {} else if r == 2 {} else if r == 3 {}
      else if r == 4 {} else if r == 5 {} else if r == 6 {} else {}
    }
    SameLowAndHigh(x, y);
  }

  // ---------------------------------------------------------------------
  // Laws of the fold

  /** Applying two lists one after the other is applying their concatenation. */
  lemma {:induction false} CombineAppend(mask: int, ts: seq<Token>, us: seq<Token>)
    ensures Combine(mask, ts + us) == Combine(Combine(mask, ts), us)
  {
    if us == [] {
      assert ts + us == ts;
    } else {
      var n := |us| - 1;
      assert (ts + us)[..|ts + us| - 1] == ts + us[..n];
      assert (ts + us)[|ts + us| - 1] == us[n];
      CombineAppend(mask, ts, us[..n]);
    }
  }

  /** A mask in [0,7] stays in [0,7], whatever the tokens. */
  lemma {:induction false} CombineInRange(mask: int, tokens: seq<Token>)
    requires 0 <= mask <= 7
    ensures 0 <= Combine(mask, tokens) <= 7
  {
    if tokens != [] {
      var n := |tokens| - 1;
      CombineInRange(mask, tokens[..n]);
      var m := Combine(mask, tokens[..n]);
      match Classify(tokens[n])
      case Grant(b) => AddBitIsOr(m, b);
      case Reset =>
      case Ignore =>
    }
  }

  /** A none token discards everything before it. */
  lemma NoneResets(mask: int, ts: seq<Token>, t: Token, us: seq<Token>)
    requires Classify(t) == Reset
    ensures Combine(mask, ts + [t] + us) == Combine(NONE, us)
  {
    CombineAppend(mask, ts + [t], us);
    assert (ts + [t])[..|ts + [t]| - 1] == ts;
  }

  /** No token of the list is a none token. */
  predicate NoReset(tokens: seq<Token>) {
    forall t :: t in tokens ==> Classify(t) != Reset
  }

  /** The bits the tokens grant. */
  function Granted(tokens: seq<Token>): (bits: set<int>)
    ensures forall b :: b in bits ==> IsBit(b)
  {
    set t | t in tokens && Classify(t).Grant? :: Classify(t).bit
  }

  /** The mask with every bit of `bits` added, in a fixed order. */
  function AddBits(mask: int, bits: set<int>): int {
    var m4 := if READ in bits then AddBit(mask, READ) else mask;
    var m2 := if WRITE in bits then AddBit(m4, WRITE) else m4;
    if DELETE in bits then AddBit(m2, DELETE) else m2
  }

  /** Adding one set of bits after another is adding their union. */
  lemma AddBitsUnion(mask: int, bits: set<int>, more: set<int>)
    requires forall b :: b in more ==> IsBit(b)
    ensures AddBits(AddBits(mask, bits), more) == AddBits(mask, bits + more)
  {
    var s4 := if READ in more then bits + {READ} else bits;
    if READ in more { AddBitAfterBits(mask, READ, bits); }
    var s2 := if WRITE in more then s4 + {WRITE} else s4;
    if WRITE in more { AddBitAfterBits(mask, WRITE, s4); }
    var s1 := if DELETE in more then s2 + {DELETE} else s2;
    if DELETE in more { AddBitAfterBits(mask, DELETE, s2); }
    assert forall b :: b in s1 <==> b in bits + more;
    assert s1 == bits + more;
  }

  /** Without a none token the fold only adds the granted bits. */
  lemma {:induction false} CombineWithoutReset(mask: int, tokens: seq<Token>)
    requires NoReset(tokens)
    ensures Combine(mask, tokens) == AddBits(mask, Granted(tokens))
  {
    if tokens != [] {
      var n := |tokens| - 1;
      var init, t := tokens[..n], tokens[n];
      assert tokens == init + [t];
      assert forall u :: u in init ==> u in tokens;
      CombineWithoutReset(mask, init);
      var m := AddBits(mask, Granted(init));
      assert Combine(mask, tokens) == Step(m, t);
      match Classify(t)
      case Grant(b) =>
        assert Granted(tokens) == Granted(init) + {b};
        AddBitAfterBits(mask, b, Granted(init));
      case Reset =>
        assert false;
      case Ignore =>
        assert Granted(tokens) == Granted(init);
    }
  }

  /** Adding one bit after a set of bits is adding it with the others. */
  lemma AddBitAfterBits(mask: int, b: int, bits: set<int>)
    requires IsBit(b)
    ensures AddBit(AddBits(mask, bits), b) == AddBits(mask, bits + {b})
  {
    var m4 := if READ in bits then AddBit(mask, READ) else mask;
    var m2 := if WRITE in bits then AddBit(m4, WRITE) else m4;
    if b == DELETE {
      if DELETE in bits { AddBitIdempotent(m2, DELETE); }
    } else if b == WRITE {
      if DELETE in bits { AddBitCommutes(m2, DELETE, WRITE); }
      if WRITE in bits { AddBitIdempotent(m4, WRITE); }
    } else {
      if DELETE in bits { AddBitCommutes(m2, DELETE, READ); }
      if WRITE in bits { AddBitCommutes(m4, WRITE, READ); }
      if READ in bits { AddBitIdempotent(mask, READ); }
    }
  }

  /** Without a none token, the order of the tokens does not matter. */
  lemma OrderIrrelevant(mask: int, ts: seq<Token>, us: seq<Token>)
    requires NoReset(ts)
    requires multiset(ts) == multiset(us)
    ensures Combine(mask, ts) == Combine(mask, us)
  {
    assert forall t :: t in ts <==> t in us by {
      forall t ensures t in ts <==> t in us {
        assert t in ts <==> t in multiset(ts);
        assert t in us <==> t in multiset(us);
      }
    }
    CombineWithoutReset(mask, ts);
    CombineWithoutReset(mask, us);
    assert Granted(ts) == Granted(us);
  }

  /** The index of the last none token, or -1 when there is none. */
  function LastReset(tokens: seq<Token>): (k: int)
    ensures -1 <= k < |tokens|
    ensures k >= 0 ==> Classify(tokens[k]) == Reset
  {
    if tokens == [] then -1
    else if Classify(tokens[|tokens| - 1]) == Reset then |tokens| - 1
    else LastReset(tokens[..|tokens| - 1])
  }

  lemma {:induction false} AfterLastReset(tokens: seq<Token>)
    ensures NoReset(tokens[LastReset(tokens) + 1..])
  {
    if tokens != [] && Classify(tokens[|tokens| - 1]) != Reset {
      var init := tokens[..|tokens| - 1];
      AfterLastReset(init);
      var k := LastReset(init);
      assert tokens[k + 1..] == init[k + 1..] + [tokens[|tokens| - 1]];
    }
  }

  /** Once a none token occurs, the starting mask no longer matters. */
  lemma ResetForgetsStart(x: int, y: int, tokens: seq<Token>)
    requires LastReset(tokens) >= 0
    ensures Combine(x, tokens) == Combine(y, tokens)
  {
    var k := LastReset(tokens);
    var before, t, after := tokens[..k], tokens[k], tokens[k + 1..];
    assert tokens == before + [t] + after;
    NoneResets(x, before, t, after);
    NoneResets(y, before, t, after);
  }

  /** Applying the same tokens twice gives the mask of applying them once. */
  lemma {:induction false} CombineIdempotent(mask: int, tokens: seq<Token>)
    ensures Combine(Combine(mask, tokens), tokens) == Combine(mask, tokens)
  {
    var once := Combine(mask, tokens);
    if LastReset(tokens) >= 0 {
      ResetForgetsStart(once, mask, tokens);
    } else {
      AfterLastReset(tokens);
      assert tokens[0..] == tokens;
      var g := Granted(tokens);
      CombineWithoutReset(mask, tokens);
      CombineWithoutReset(once, tokens);
      AddBitsUnion(mask, g, g);
      assert g + g == g;
    }
  }

  // ---------------------------------------------------------------------
  // Rendering a mask as text

  /** The decimal digits of a natural number, most significant first. */
  function NatToDecimal(n: nat): (r: string)
    ensures |r| >= 1
    ensures forall i :: 0 <= i < |r| ==> '0' <= r[i] <= '9'
  {
    if n < 10 then ["0123456789"[n]] else NatToDecimal(n / 10) + ["0123456789"[n % 10]]
  }

  /** String(n) for an integer n: an optional minus sign and its digits. */
  function IntToDecimal(n: int): string {
    if n < 0 then "-" + NatToDecimal(-n) else NatToDecimal(n)
  }

  /** The number a string of decimal digits denotes. */
  function DecimalValue(s: string): nat
    requires forall i :: 0 <= i < |s| ==> '0' <= s[i] <= '9'
  {
    if s == [] then 0 else 10 * DecimalValue(s[..|s| - 1]) + (s[|s| - 1] as int - '0' as int)
  }

  /** The digits read back give the number they were written from. */
  lemma {:induction false} DecimalRoundTrip(n: nat)
    ensures DecimalValue(NatToDecimal(n)) == n
  {
    var r := NatToDecimal(n);
    if n >= 10 {
      DecimalRoundTrip(n / 10);
      assert r[..|r| - 1] == NatToDecimal(n / 10);
    }
  }

  /** The names of the bits set in a mask in [0,7], read first. */
  function BitNames(mask: int): seq<string>
    requires 0 <= mask <= 7
  {
    (if HasBit(mask, READ) then ["Read"] else [])
    + (if HasBit(mask, WRITE) then ["Write"] else [])
    + (if HasBit(mask, DELETE) then ["Delete"] else [])
  }

  function JoinNames(names: seq<string>): string {
    if names == [] then ""
    else if |names| == 1 then names[0]
    else names[0] + ", " + JoinNames(names[1..])
  }

  /**
   * permissionNumberToString: a mask in [0,7] is described by the names of
   * its bits ("None" when it has none); any other value is reported invalid.
   */
  function PermissionNumberToString(permission: int): (r: string)
    ensures 0 <= permission <= 7 && BitNames(permission) == [] ==> r == "None"
    ensures 0 <= permission <= 7 && BitNames(permission) != [] ==> r == JoinNames(BitNames(permission))
    ensures !(0 <= permission <= 7) ==> r == "Invalid permission value of " + IntToDecimal(permission)
  {
    match permission
    case 7 =>
      assert BitNames(7) == ["Read", "Write", "Delete"];
      assert JoinNames(["Write", "Delete"]) == "Write, Delete";
      "Read, Write, Delete"
    case 6 => "Read, Write"
    case 5 => "Read, Delete"
    case 4 => "Read"
    case 3 => "Write, Delete"
    case 2 => "Write"
    case 1 => "Delete"
    case 0 => "None"
    case _ => "Invalid permission value of " + IntToDecimal(permission)
  }

  /** Distinct valid masks are described differently. */
  lemma DescriptionsDistinct(p: int, q: int)
    requires 0 <= p <= 7 && 0 <= q <= 7 && p != q
    ensures PermissionNumberToString(p) != PermissionNumberToString(q)
  {
  }
}
