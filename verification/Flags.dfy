/**
 The command-line flag editor of scripts/asset_loadtest_local.go, and the laws that
 tie reading a flag to writing it.
 */
module Flags {

  function Short(name: string): string { "-" + name }
  function Long(name: string): string { "--" + name }
  function ShortEq(name: string): string { "-" + name + "=" }
  function LongEq(name: string): string { "--" + name + "=" }

  predicate Bare(a: string, name: string) { a == Short(name) || a == Long(name) }

  /** Argument `i` gives the flag a value, by itself or together with the next argument. */
  predicate Hit(args: seq<string>, name: string, i: nat) {
    i < |args| &&
    (ShortEq(name) <= args[i] || LongEq(name) <= args[i] || (Bare(args[i], name) && i + 1 < |args|))
  }

  /** The first argument from `i` on that gives the flag a value; the number of arguments if none does. */
  function FirstHit(args: seq<string>, name: string, i: nat): (n: nat)
    requires i <= |args|
    ensures i <= n <= |args|
    ensures n < |args| ==> Hit(args, name, n)
    ensures forall j: nat :: i <= j < n ==> !Hit(args, name, j)
    decreases |args| - i
  {
    if i == |args| || Hit(args, name, i) then i else FirstHit(args, name, i + 1)
  }

  function ValueAt(args: seq<string>, name: string, i: nat): string
    requires Hit(args, name, i)
  {
    if ShortEq(name) <= args[i] then args[i][|ShortEq(name)|..]
    else if LongEq(name) <= args[i] then args[i][|LongEq(name)|..]
    else args[i + 1]
  }

  function GetValue(args: seq<string>, name: string): string {
    var i := FirstHit(args, name, 0);
    if i == |args| then "" else ValueAt(args, name, i)
  }

  function Upsert(args: seq<string>, name: string, value: string): seq<string> {
    var i := FirstHit(args, name, 0);
    if i == |args| then args + [ShortEq(name) + value]
    else if ShortEq(name) <= args[i] then args[i := ShortEq(name) + value]
    else if LongEq(name) <= args[i] then args[i := LongEq(name) + value]
    else args[i + 1 := value]
  }

  predicate Names(a: string, name: string) {
    Bare(a, name) || ShortEq(name) <= a || LongEq(name) <= a
  }

  predicate Has(args: seq<string>, name: string) {
    exists i :: 0 <= i < |args| && Names(args[i], name)
  }

  // ------------------------------------------------------------------ the loops

  method HasFlag(args: seq<string>, name: string) returns (found: bool)
    ensures found == Has(args, name)
  {
    for i := 0 to |args|
      invariant forall j :: 0 <= j < i ==> !Names(args[j], name)
    {
      var a := args[i];
      if a == Short(name) || a == Long(name) || ShortEq(name) <= a || LongEq(name) <= a {
        return true;
      }
    }
    return false;
  }

  method GetFlagValue(args: seq<string>, name: string) returns (value: string)
    ensures value == GetValue(args, name)
  {
    for i := 0 to |args|
      invariant FirstHit(args, name, 0) == FirstHit(args, name, i)
    {
      var a := args[i];
      if ShortEq(name) <= a {
        return a[|ShortEq(name)|..];
      }
      if LongEq(name) <= a {
        return a[|LongEq(name)|..];
      }
      if (a == Short(name) || a == Long(name)) && i + 1 < |args| {
        return args[i + 1];
      }
    }
    return "";
  }

  /** Overwrites one argument in place, or returns a longer copy. */
  method UpsertFlag(args: array<string>, name: string, value: string) returns (r: array<string>)
    modifies args
    ensures r[..] == Upsert(old(args[..]), name, value)
    ensures r == args || (fresh(r) && args[..] == old(args[..]))
  {
    ghost var before := args[..];
    for i := 0 to args.Length
      invariant args[..] == before
      invariant FirstHit(before, name, 0) == FirstHit(before, name, i)
    {
      var a := args[i];
      assert a == before[i];
      if ShortEq(name) <= a {
        args[i] := ShortEq(name) + value;
        return args;
      }
      if LongEq(name) <= a {
        args[i] := LongEq(name) + value;
        return args;
      }
      if (a == Short(name) || a == Long(name)) && i + 1 < args.Length {
        args[i + 1] := value;
        return args;
      }
    }
    var n := args.Length;
    var last := ShortEq(name) + value;
    r := new string[n + 1](i requires 0 <= i <= n reads args => if i < args.Length then args[i] else last);
    assert r[..] == before + [last];
  }

  // ------------------------------------------------------------------- the laws

  lemma FirstHitIs(args: seq<string>, name: string, n: nat)
    requires n <= |args| && (n < |args| ==> Hit(args, name, n))
    requires forall j: nat :: j < n ==> !Hit(args, name, j)
    ensures FirstHit(args, name, 0) == n
  {}

  /** `--name=...` never starts with `-name=`. */
  lemma LongIsNotShort(name: string, value: string)
    ensures !(ShortEq(name) <= LongEq(name) + value)
  {
    var s := ShortEq(name);
    assert s[|s| - 1] == '=';
    assert LongEq(name) + value == "-" + s + value;
    if s <= LongEq(name) + value {
      AllDashes(s, value, |s| - 1);
    }
  }

  lemma {:induction false} AllDashes(s: string, value: string, i: nat)
    requires s != "" && s <= "-" + s + value && i < |s|
    ensures s[i] == '-'
  {
    var t := "-" + s + value;
    assert s[i] == t[i];
    if i > 0 {
      AllDashes(s, value, i - 1);
      assert t[i] == s[i - 1];
    }
  }

  /** The flag is given a value, or the arguments do not end in the bare flag. */
  predicate Editable(args: seq<string>, name: string) {
    FirstHit(args, name, 0) < |args| || args == [] || !Bare(args[|args| - 1], name)
  }

  /** Where the edited list gives its value, and that this is the value written. */
  lemma UpsertHits(args: seq<string>, name: string, value: string)
    requires Editable(args, name)
    ensures var r := Upsert(args, name, value);
            && FirstHit(r, name, 0) == FirstHit(args, name, 0) < |r|
            && ValueAt(r, name, FirstHit(args, name, 0)) == value
            && |r| == |args| + if FirstHit(args, name, 0) == |args| then 1 else 0
  {
    var i, r := FirstHit(args, name, 0), Upsert(args, name, value);
    LongIsNotShort(name, value);
    forall j: nat | j < i ensures !Hit(r, name, j) {
      assert !Hit(args, name, j) && r[j] == args[j];
    }
    FirstHitIs(r, name, i);
  }

  /** A list that ends in the bare flag gets the new argument as that flag's value. */
  lemma AppendAfterBare(args: seq<string>, name: string, value: string)
    requires !Editable(args, name)
    ensures var r := Upsert(args, name, value);
            && r == args + [ShortEq(name) + value]
            && FirstHit(r, name, 0) == |args| - 1
            && GetValue(r, name) == ShortEq(name) + value
            && !(ShortEq(name) <= r[|args| - 1]) && !(LongEq(name) <= r[|args| - 1])
  {
    var n, r := |args|, Upsert(args, name, value);
    assert !Hit(args, name, n - 1);
    forall j: nat | j < n - 1 ensures !Hit(r, name, j) {
      assert !Hit(args, name, j) && r[j] == args[j];
    }
    FirstHitIs(r, name, n - 1);
  }

  /** Reading back what was written: exactly for the editable lists. */
  lemma PutGetIff(args: seq<string>, name: string, value: string)
    ensures GetValue(Upsert(args, name, value), name) == value <==> Editable(args, name)
  {
    if Editable(args, name) {
      UpsertHits(args, name, value);
    } else {
      AppendAfterBare(args, name, value);
      assert |ShortEq(name) + value| > |value|;
    }
  }

  /** A second write overrides the first: exactly for the editable lists. */
  lemma PutPutIff(args: seq<string>, name: string, v: string, w: string)
    ensures Upsert(Upsert(args, name, v), name, w) == Upsert(args, name, w) <==> Editable(args, name)
  {
    var r, i := Upsert(args, name, v), FirstHit(args, name, 0);
    if Editable(args, name) {
      UpsertHits(args, name, v);
      LongIsNotShort(name, v);
      SecondUpsert(args, name, v, w);
    } else {
      AppendAfterBare(args, name, v);
      var n := |args|;
      assert Upsert(r, name, w)[n] == w;
      assert Upsert(args, name, w)[n] == ShortEq(name) + w;
      assert |ShortEq(name) + w| > |w|;
    }
  }

  lemma SecondUpsert(args: seq<string>, name: string, v: string, w: string)
    requires Editable(args, name)
    requires FirstHit(Upsert(args, name, v), name, 0) == FirstHit(args, name, 0) < |Upsert(args, name, v)|
    requires !(ShortEq(name) <= LongEq(name) + v)
    ensures Upsert(Upsert(args, name, v), name, w) == Upsert(args, name, w)
  {}

  /** Writing back what was read changes nothing. */
  lemma GetPut(args: seq<string>, name: string)
    requires FirstHit(args, name, 0) < |args|
    ensures Upsert(args, name, GetValue(args, name)) == args
  {
    var i := FirstHit(args, name, 0);
    if ShortEq(name) <= args[i] {
      assert ShortEq(name) + args[i][|ShortEq(name)|..] == args[i];
    } else if LongEq(name) <= args[i] {
      assert LongEq(name) + args[i][|LongEq(name)|..] == args[i];
    }
  }

  predicate DiffersOnlyAt(a: seq<string>, b: seq<string>, i: int) {
    |a| == |b| && forall j :: 0 <= j < |a| && j != i ==> a[j] == b[j]
  }

  /** After a write the flag is present, and at most one argument differs or exactly one is appended. */
  lemma UpsertIsLocal(args: seq<string>, name: string, value: string)
    ensures Has(Upsert(args, name, value), name)
    ensures var r := Upsert(args, name, value);
            || r == args + [ShortEq(name) + value]
            || exists i :: 0 <= i < |args| && DiffersOnlyAt(args, r, i)
  {
    var i, r := FirstHit(args, name, 0), Upsert(args, name, value);
    if i < |args| {
      assert Names(r[i], name);
      var changed := if ShortEq(name) <= args[i] || LongEq(name) <= args[i] then i else i + 1;
      assert DiffersOnlyAt(args, r, changed);
    } else {
      assert Names(r[|args|], name);
    }
  }

  // -------------------------------------------------------------- one flag and another

  /** A name as the scripts use them: it has no `=`, and no dash in front. */
  predicate Plain(name: string) {
    '=' !in name && (name == "" || name[0] != '-')
  }

  lemma SameUpToEquals(a: string, b: string, x: string, y: string)
    requires '=' !in a && '=' !in b && a + "=" + x == b + "=" + y
    ensures a == b
  {
    var s := a + "=" + x;
    assert s[|a|] == '=' && s[|b|] == '=';
    assert s[..|a|] == a && s[..|b|] == b;
  }

  lemma ShortEqNamesOne(name: string, value: string, other: string)
    requires Plain(name) && Plain(other) && name != other && name != ""
    ensures !Names(ShortEq(name) + value, other)
  {
    var a := ShortEq(name) + value;
    assert a[0] == '-' && a[1] == name[0] && a[|name| + 1] == '=';
    if ShortEq(other) <= a {
      var y := a[|ShortEq(other)|..];
      assert a == ShortEq(other) + y;
      assert a[1..] == name + "=" + value == other + "=" + y;
      SameUpToEquals(name, other, value, y);
    }
  }

  lemma LongEqNamesOne(name: string, value: string, other: string)
    requires Plain(name) && Plain(other) && name != other && other != ""
    ensures !Names(LongEq(name) + value, other)
  {
    var a := LongEq(name) + value;
    assert a[0] == '-' && a[1] == '-' && a[|name| + 2] == '=';
    if LongEq(other) <= a {
      var y := a[|LongEq(other)|..];
      assert a == LongEq(other) + y;
      assert a[2..] == name + "=" + value == other + "=" + y;
      SameUpToEquals(name, other, value, y);
    }
  }

  /** An argument names one plain flag at most; so `--hostname` does not name `host`. */
  lemma NamesOne(a: string, name: string, other: string)
    requires Plain(name) && Plain(other) && name != other && name != "" && other != "" && Names(a, name)
    ensures !Names(a, other)
  {
    if ShortEq(name) <= a {
      assert a == ShortEq(name) + a[|ShortEq(name)|..];
      ShortEqNamesOne(name, a[|ShortEq(name)|..], other);
    } else if LongEq(name) <= a {
      assert a == LongEq(name) + a[|LongEq(name)|..];
      LongEqNamesOne(name, a[|LongEq(name)|..], other);
    } else if ShortEq(other) <= a {
      assert a == ShortEq(other) + a[|ShortEq(other)|..];
      ShortEqNamesOne(other, a[|ShortEq(other)|..], name);
    } else if LongEq(other) <= a {
      assert a == LongEq(other) + a[|LongEq(other)|..];
      LongEqNamesOne(other, a[|LongEq(other)|..], name);
    } else {
      assert Short(name)[1..] == name && Long(name)[2..] == name;
      assert Short(other)[1..] == other && Long(other)[2..] == other;
    }
  }

  /** A list that does not name the flag reads as the empty string, and so does one that only ends in it. */
  lemma AbsentReadsEmpty(args: seq<string>, name: string)
    requires forall i :: 0 <= i < |args| && Names(args[i], name) ==> i == |args| - 1 && Bare(args[i], name)
    ensures GetValue(args, name) == ""
  {
    var i := FirstHit(args, name, 0);
    if i < |args| {
      assert Names(args[i], name);
      assert Bare(args[i], name);
      NotBoth(args[i], name);
    }
  }

  /** A bare flag gives no value by itself. */
  lemma NotBoth(a: string, name: string)
    requires Bare(a, name)
    ensures !(ShortEq(name) <= a) && !(LongEq(name) <= a)
  {
    LongIsNotShort(name, "");
    assert LongEq(name) + "" == Long(name) + "=";
  }

  /** The position that `Upsert` writes. */
  function Slot(args: seq<string>, name: string): nat {
    var i := FirstHit(args, name, 0);
    if i < |args| && !(ShortEq(name) <= args[i]) && !(LongEq(name) <= args[i]) then i + 1 else i
  }

  /** The other flag takes its value from the argument at `p`, or would if there were one. */
  predicate ValueSlot(args: seq<string>, other: string, p: nat) {
    && 0 < p <= |args| && Bare(args[p - 1], other)
    && (FirstHit(args, other, 0) == p - 1 || (p == |args| && FirstHit(args, other, 0) == p))
  }

  lemma SlotIsWritten(args: seq<string>, name: string, value: string)
    ensures var p, r := Slot(args, name), Upsert(args, name, value);
            && p <= |args| && |r| == (if p == |args| then |args| + 1 else |args|)
            && (forall j :: 0 <= j < |args| && j != p ==> r[j] == args[j])
            && (FirstHit(args, name, 0) == p ==> r[p] == ShortEq(name) + value || r[p] == LongEq(name) + value)
            && (FirstHit(args, name, 0) != p ==> r[p] == value)
  {}

  /**
   Writing one flag and another: the presence of `other` is unchanged, and so is its reading,
   unless the position written is where `other` takes its value from, provided that neither
   what is overwritten nor what is written names `other`.
   */
  lemma OtherFlagStays(args: seq<string>, name: string, value: string, other: string)
    requires var p := Slot(args, name);
             (p < |args| ==> !Names(args[p], other)) && !Names(Upsert(args, name, value)[p], other)
    ensures Has(Upsert(args, name, value), other) <==> Has(args, other)
    ensures ValueSlot(args, other, Slot(args, name)) ==>
              GetValue(Upsert(args, name, value), other) == Upsert(args, name, value)[Slot(args, name)]
    ensures !ValueSlot(args, other, Slot(args, name)) ==>
              GetValue(Upsert(args, name, value), other) == GetValue(args, other)
  {
    var p, r, j := Slot(args, name), Upsert(args, name, value), FirstHit(args, other, 0);
    SlotIsWritten(args, name, value);
    if i :| 0 <= i < |args| && Names(args[i], other) { assert Names(r[i], other); }
    if i :| 0 <= i < |r| && Names(r[i], other) { assert Names(args[i], other); }
    OtherHit(args, r, other, p);
  }

  /**
   For plain, distinct names nothing need be asked of the list when the flag is given with
   `=`, or is not given: what is then written, and overwritten, names that flag only.
   */
  lemma PlainFlagsStayApart(args: seq<string>, name: string, value: string, other: string)
    requires Plain(name) && Plain(other) && name != other && name != "" && other != ""
    requires FirstHit(args, name, 0) == Slot(args, name)
    ensures Has(Upsert(args, name, value), other) <==> Has(args, other)
    ensures !ValueSlot(args, other, Slot(args, name)) ==>
              GetValue(Upsert(args, name, value), other) == GetValue(args, other)
  {
    var p, r := Slot(args, name), Upsert(args, name, value);
    SlotIsWritten(args, name, value);
    NamesOne(r[p], name, other);
    if p < |args| { NamesOne(args[p], name, other); }
    OtherFlagStays(args, name, value, other);
  }

  /** Where `other` gets its value when one argument that does not name it changes, or is appended. */
  lemma OtherHit(args: seq<string>, r: seq<string>, other: string, p: nat)
    requires p <= |args| && |r| == (if p == |args| then |args| + 1 else |args|)
    requires forall j :: 0 <= j < |args| && j != p ==> r[j] == args[j]
    requires (p < |args| ==> !Names(args[p], other)) && !Names(r[p], other)
    ensures ValueSlot(args, other, p) ==> GetValue(r, other) == r[p]
    ensures !ValueSlot(args, other, p) ==> GetValue(r, other) == GetValue(args, other)
  {
    var j := FirstHit(args, other, 0);
    if p == |args| && j == |args| {
      if ValueSlot(args, other, p) {
        NotBoth(args[p - 1], other);
        HitsBefore(args, r, other, p - 1);
        FirstHitIs(r, other, p - 1);
      } else {
        HitsBefore(args, r, other, p);
        assert !Hit(r, other, p);
        if p > 0 { assert !Hit(args, other, p - 1); }
        FirstHitIs(r, other, |r|);
      }
    } else {
      HitsBefore(args, r, other, j);
      if ValueSlot(args, other, p) { NotBoth(args[p - 1], other); }
      if j == |args| { FirstHitIs(r, other, |r|); } else { FirstHitIs(r, other, j); }
    }
  }

  /** No argument before `n` gives a value, before and after the change alike. */
  lemma HitsBefore(args: seq<string>, r: seq<string>, other: string, n: nat)
    requires n <= |args| <= |r| && (|args| < |r| ==> n < |args| || args == [] || !Bare(args[|args| - 1], other))
    requires forall j: nat :: j < n ==> !Hit(args, other, j)
    requires forall j :: 0 <= j < n ==> r[j] == args[j] || (!Names(args[j], other) && !Names(r[j], other))
    ensures forall j: nat :: j < n ==> !Hit(r, other, j)
  {
    forall j: nat | j < n ensures !Hit(r, other, j) {
      assert !Hit(args, other, j);
    }
  }
}
