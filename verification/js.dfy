/** JavaScript values as the request pipeline sees them: what `express.json()` parses a body
    into, plus the two object kinds the handlers put beside them (an ObjectId and a Date).
    Objects keep their own keys in insertion order, and their prototype, through which a
    property read finds what the object itself lacks. (JavaScript lists integer-like keys first,
    in ascending order; the model does not.) */
module Js {
  import opened Text

  datatype Value =
    | Undefined
    | Null
    | Bool(b: bool)
    | Num(n: int)
    | Str(s: string)
    | Arr(items: seq<Value>)
    | Obj(fields: seq<Field>, proto: Proto := ObjectPrototype)
    | ObjectId(hex: string)
    | Date(ms: int)

  datatype Field = Field(key: string, val: Value)

  /** An object's prototype: `Object.prototype`, as for every object the parser and the
      handlers create; none, after `__proto__` is set to `null`; or another value, after
      `__proto__` is set to an object or an array. The members of `Object.prototype` are
      functions; the one read that can reach them is the permission table's, which
      `Permissions.CheckUserPermission` states on its own. */
  datatype Proto = ObjectPrototype | NullPrototype | Inherits(parent: Value)

  /** A thrown Error: its `name`, its `code` (set by the database driver) and its `message`. */
  datatype Failure = Failure(name: string, code: Value, message: string)

  function TypeError(message: string): Failure { Failure("TypeError", Undefined, message) }

  /** What an operation that may throw produces. */
  datatype Result<T> = Ok(value: T) | Err(error: Failure)

  datatype Option<T> = None | Some(value: T)

  /** ToBoolean: what `if (v)`, `!v` and `v || w` test. */
  predicate Truthy(v: Value) {
    match v
    case Undefined => false
    case Null => false
    case Bool(b) => b
    case Num(n) => n != 0
    case Str(s) => s != ""
    case _ => true
  }

  /** `a || b`. */
  function Or(a: Value, b: Value): (r: Value)
    ensures Truthy(a) ==> r == a
    ensures !Truthy(a) ==> r == b
  {
    if Truthy(a) then a else b
  }

  /** `typeof v === 'object' && v !== null`. */
  predicate IsObjectLike(v: Value) {
    v.Arr? || v.Obj? || v.ObjectId? || v.Date?
  }

  /** `a === b` where at most one side is an object: objects are compared by identity, which
      this model does not track, so two objects are never compared here. */
  function StrictEquals(a: Value, b: Value): (r: bool)
    requires !(IsObjectLike(a) && IsObjectLike(b))
    ensures r ==> a == b
    ensures r <==> a == b && !IsObjectLike(a)
  {
    match a
    case Undefined => b.Undefined?
    case Null => b.Null?
    case Bool(x) => b.Bool? && b.b == x
    case Num(x) => b.Num? && b.n == x
    case Str(x) => b.Str? && b.s == x
    case _ => false
  }

  predicate HasKey(fields: seq<Field>, k: string) {
    exists i :: 0 <= i < |fields| && fields[i].key == k
  }

  predicate DistinctKeys(fields: seq<Field>) {
    forall i, j :: 0 <= i < j < |fields| ==> fields[i].key != fields[j].key
  }

  /** The value stored under `k`, or `undefined`. */
  function Lookup(fields: seq<Field>, k: string): Value
  {
    if fields == [] then Undefined
    else if fields[0].key == k then fields[0].val
    else Lookup(fields[1..], k)
  }

  /** Property access `v.k` for the keys the core reads: an own property, or else the first one
      found along the prototype chain. None of those keys names a member of `Object.prototype`,
      an array or a primitive, so a read that finds no property is `undefined`. */
  function Get(v: Value, k: string): (r: Value)
    ensures v.Obj? && (HasKey(v.fields, k) || !v.proto.Inherits?) ==> r == Lookup(v.fields, k)
    ensures !v.Obj? ==> r == Undefined
    decreases v
  {
    if !v.Obj? then Undefined
    else if HasKey(v.fields, k) || !v.proto.Inherits? then Lookup(v.fields, k)
    else Get(v.proto.parent, k)
  }

  /** The own enumerable properties that a spread `{...v}` copies: an object's own keys, an
      array's indices, and nothing for `null`, `undefined` or a number, boolean or date. */
  function OwnFields(v: Value): (r: seq<Field>)
    ensures v.Obj? ==> r == v.fields
    ensures v.Arr? ==> |r| == |v.items| && forall i :: 0 <= i < |r| ==> r[i] == Field(NatToString(i), v.items[i])
    ensures v.Str? ==> |r| == |v.s| && forall i :: 0 <= i < |r| ==> r[i] == Field(NatToString(i), Str([v.s[i]]))
    ensures !v.Obj? && !v.Arr? && !v.Str? ==> r == []
  {
    match v
    case Obj(fields, _) => fields
    case Arr(items) => seq(|items|, i requires 0 <= i < |items| => Field(NatToString(i), items[i]))
    case Str(s) => seq(|s|, i requires 0 <= i < |s| => Field(NatToString(i), Str([s[i]])))
    case _ => []
  }

  /** `v.k = x` where `v.k` already reads a property: the assignment lands on the object that
      holds it. (For the list the validator edits, the array is the same object wherever the
      chain finds it, so its edit shows through every read.) */
  function Reassign(v: Value, k: string, x: Value): (r: Value)
    ensures v.Obj? <==> r.Obj?
    ensures forall k' :: k' != k ==> Get(r, k') == Get(v, k')
    ensures Get(v, k) != Undefined ==> Get(r, k) == x
    decreases v
  {
    if !v.Obj? then v
    else if HasKey(v.fields, k) then
      assert forall k' :: HasKey(Set(v.fields, k, x), k') <==> HasKey(v.fields, k') || k' == k by {
        forall k' { HasKeySet(v.fields, k, x, k'); }
      }
      assert forall k' :: Lookup(Set(v.fields, k, x), k') == if k' == k then x else Lookup(v.fields, k') by {
        forall k' { LookupSet(v.fields, k, x, k'); }
      }
      v.(fields := Set(v.fields, k, x))
    else if v.proto.Inherits? then
      var parent := Reassign(v.proto.parent, k, x);
      v.(proto := Inherits(parent))
    else
      assert Get(v, k) == Undefined by { LookupMissing(v.fields, k); }
      v
  }

  /** The own keys, in order (`Object.keys`). */
  function Keys(fields: seq<Field>): (r: seq<string>)
    ensures |r| == |fields|
    ensures forall i :: 0 <= i < |fields| ==> r[i] == fields[i].key
  {
    seq(|fields|, i requires 0 <= i < |fields| => fields[i].key)
  }

  /** `o[k] = v`: overwrite in place when the key exists, otherwise append. */
  function Set(fields: seq<Field>, k: string, v: Value): (r: seq<Field>)
    ensures |r| == |fields| + (if HasKey(fields, k) then 0 else 1)
  {
    if fields == [] then [Field(k, v)]
    else if fields[0].key == k then [Field(k, v)] + fields[1..]
    else
      assert HasKey(fields, k) <==> HasKey(fields[1..], k) by {
        if HasKey(fields, k) {
          var i :| 0 <= i < |fields| && fields[i].key == k;
          assert fields[1..][i - 1].key == k;
        }
        if HasKey(fields[1..], k) {
          var i :| 0 <= i < |fields[1..]| && fields[1..][i].key == k;
          assert fields[i + 1].key == k;
        }
      }
      [fields[0]] + Set(fields[1..], k, v)
  }

  /** `delete o[k]`. */
  function Remove(fields: seq<Field>, k: string): (r: seq<Field>)
    ensures |r| <= |fields|
  {
    if fields == [] then []
    else if fields[0].key == k then Remove(fields[1..], k)
    else [fields[0]] + Remove(fields[1..], k)
  }

  /** `{...a, ...b}`: b's entries written over a's, one by one. */
  function Spread(a: seq<Field>, b: seq<Field>): seq<Field>
    decreases |b|
  {
    if b == [] then a else Spread(Set(a, b[0].key, b[0].val), b[1..])
  }

  lemma {:induction false} LookupSet(fields: seq<Field>, k: string, v: Value, k': string)
    ensures Lookup(Set(fields, k, v), k') == if k' == k then v else Lookup(fields, k')
  {
    if fields != [] && fields[0].key != k {
      LookupSet(fields[1..], k, v, k');
    }
  }

  lemma HasKeySet(fields: seq<Field>, k: string, v: Value, k': string)
    ensures HasKey(Set(fields, k, v), k') <==> HasKey(fields, k') || k' == k
  {
    var r := Set(fields, k, v);
    SetKeys(fields, k, v);
    if HasKey(fields, k') {
      var i :| 0 <= i < |fields| && fields[i].key == k';
      assert r[i].key == k';
    } else if k' == k {
      assert r[|fields|].key == k;
    }
  }

  lemma KeysPrefix(fields: seq<Field>, n: nat)
    requires 0 < n <= |fields|
    ensures Keys(fields)[..n] == Keys(fields)[..n - 1] + [fields[n - 1].key]
  {
  }

  lemma HasKeyKeys(fields: seq<Field>, k: string)
    ensures HasKey(fields, k) <==> k in Keys(fields)
  {
    if k in Keys(fields) {
      var i :| 0 <= i < |fields| && Keys(fields)[i] == k;
      assert fields[i].key == k;
    }
  }

  lemma HasKeyAppend(fields: seq<Field>, f: Field, k: string)
    ensures HasKey(fields + [f], k) <==> HasKey(fields, k) || f.key == k
  {
    var r := fields + [f];
    if HasKey(fields, k) {
      var i :| 0 <= i < |fields| && fields[i].key == k;
      assert r[i].key == k;
    }
    if f.key == k {
      assert r[|fields|].key == k;
    }
  }

  /** Reading an object with one more entry at the end: its earlier entries win. */
  lemma {:induction false} LookupAppend(fields: seq<Field>, f: Field, k: string)
    ensures Lookup(fields + [f], k) ==
              if HasKey(fields, k) then Lookup(fields, k) else if f.key == k then f.val else Undefined
  {
    if fields == [] {
      assert [f][1..] == [];
    } else {
      assert (fields + [f])[1..] == fields[1..] + [f];
      LookupAppend(fields[1..], f, k);
      if fields[0].key != k {
        LookupTail(fields, k);
      }
    }
  }

  /** With distinct keys, each key reads as its own entry. */
  lemma {:induction false} LookupAt(fields: seq<Field>, i: nat)
    requires i < |fields| && DistinctKeys(fields)
    ensures Lookup(fields, fields[i].key) == fields[i].val
  {
    if i > 0 {
      assert fields[0].key != fields[i].key;
      assert fields[1..][i - 1] == fields[i];
      LookupAt(fields[1..], i - 1);
    }
  }

  /** Set keeps every key in its place, overwriting the entry of `k` or appending one. */
  lemma {:induction false} SetKeys(fields: seq<Field>, k: string, v: Value)
    ensures forall i :: 0 <= i < |fields| ==> Set(fields, k, v)[i].key == fields[i].key
    ensures !HasKey(fields, k) ==> Set(fields, k, v)[|fields|] == Field(k, v)
  {
    if fields != [] && fields[0].key != k {
      SetKeys(fields[1..], k, v);
      assert Set(fields, k, v) == [fields[0]] + Set(fields[1..], k, v);
    }
  }

  lemma {:induction false} LookupTail(fields: seq<Field>, k: string)
    requires fields != [] && fields[0].key != k
    ensures Lookup(fields, k) == Lookup(fields[1..], k)
    ensures HasKey(fields, k) <==> HasKey(fields[1..], k)
  {
    if HasKey(fields, k) {
      var i :| 0 <= i < |fields| && fields[i].key == k;
      assert fields[1..][i - 1].key == k;
    }
    if HasKey(fields[1..], k) {
      var i :| 0 <= i < |fields[1..]| && fields[1..][i].key == k;
      assert fields[i + 1].key == k;
    }
  }

  /** A key that is not there reads `undefined`. */
  lemma {:induction false} LookupMissing(fields: seq<Field>, k: string)
    requires !HasKey(fields, k)
    ensures Lookup(fields, k) == Undefined
  {
    if fields != [] {
      assert fields[0].key != k;
      LookupTail(fields, k);
      LookupMissing(fields[1..], k);
    }
  }

  /** Deleting one key leaves every other key's value as it was. */
  lemma {:induction false} LookupRemove(fields: seq<Field>, k: string, k': string)
    ensures Lookup(Remove(fields, k), k') == if k' == k then Undefined else Lookup(fields, k')
  {
    if fields != [] {
      LookupRemove(fields[1..], k, k');
    }
  }

  /** Deleting one key leaves every other key in place. */
  lemma {:induction false} HasKeyRemove(fields: seq<Field>, k: string, k': string)
    ensures HasKey(Remove(fields, k), k') <==> HasKey(fields, k') && k' != k
  {
    if fields != [] {
      HasKeyRemove(fields[1..], k, k');
      var rest := Remove(fields[1..], k);
      assert HasKey(fields, k') <==> fields[0].key == k' || HasKey(fields[1..], k') by {
        if HasKey(fields, k') {
          var i :| 0 <= i < |fields| && fields[i].key == k';
          if i > 0 { assert fields[1..][i - 1].key == k'; }
        }
        if HasKey(fields[1..], k') {
          var i :| 0 <= i < |fields[1..]| && fields[1..][i].key == k';
          assert fields[i + 1].key == k';
        }
      }
      if fields[0].key != k {
        assert Remove(fields, k) == [fields[0]] + rest;
        assert HasKey([fields[0]] + rest, k') <==> fields[0].key == k' || HasKey(rest, k') by {
          if HasKey([fields[0]] + rest, k') {
            var i :| 0 <= i < |[fields[0]] + rest| && ([fields[0]] + rest)[i].key == k';
            if i > 0 { assert rest[i - 1].key == k'; }
          }
          if HasKey(rest, k') {
            var i :| 0 <= i < |rest| && rest[i].key == k';
            assert ([fields[0]] + rest)[i + 1].key == k';
          }
        }
      }
    }
  }

  /** Spread overrides key by key: a key of `b` takes `b`'s value, any other key keeps `a`'s. */
  lemma {:induction false} LookupSpread(a: seq<Field>, b: seq<Field>, k: string)
    requires DistinctKeys(b)
    ensures Lookup(Spread(a, b), k) == if HasKey(b, k) then Lookup(b, k) else Lookup(a, k)
    decreases |b|
  {
    if b != [] {
      var a' := Set(a, b[0].key, b[0].val);
      LookupSpread(a', b[1..], k);
      LookupSet(a, b[0].key, b[0].val, k);
      if b[0].key != k {
        LookupTail(b, k);
      }
    }
  }

  /** The text `String(v)` produces for a JSON value; an array is joined with commas, its
      `null` and `undefined` elements contributing nothing. */
  function ToText(v: Value): string
    decreases v, 1
  {
    match v
    case Undefined => "undefined"
    case Null => "null"
    case Bool(b) => if b then "true" else "false"
    case Num(n) => IntToString(n)
    case Str(s) => s
    case Arr(items) =>
      Join(seq(|items|, i requires 0 <= i < |items| => ElementText(v, items[i])), ",")
    case Obj(_, _) => "[object Object]"
    case ObjectId(h) => h
    case Date(ms) => IntToString(ms)
  }

  function ElementText(parent: Value, e: Value): string
    requires e < parent
    decreases parent, 0
  {
    if e.Undefined? || e.Null? then "" else ToText(e)
  }

  /** `Number(s)` on the strings that spell an integer in decimal: white space around an optional
      sign and digits, or white space alone, which is 0. Any other string gives `None`: text
      that is not a number (`NaN`), and the numeric forms outside this model (a fraction, an
      exponent, a hexadecimal, binary or octal prefix, `Infinity`). */
  function DecimalInteger(s: string): (r: Option<int>)
    ensures r.Some? && IsDigits(Trim(s)) ==> r.value == DigitsValue(Trim(s))
  {
    var t := Trim(s);
    if t == [] then Some(0)
    else if (t[0] == '-' || t[0] == '+') && IsDigits(t[1..]) then
      var magnitude: int := DigitsValue(t[1..]);
      Some(if t[0] == '-' then -magnitude else magnitude)
    else if IsDigits(t) then Some(DigitsValue(t))
    else None
  }

  /** `Number(String(i))` is `i` for every integer: the decimal text reads back. */
  lemma DecimalIntegerRoundTrip(i: int)
    ensures DecimalInteger(IntToString(i)) == Some(i)
  {
    var s := IntToString(i);
    DigitsValueNatToString(if i < 0 then -i else i);
    TrimUnchanged(s);
    if i < 0 {
      assert s[1..] == NatToString(-i);
    }
  }

  /** The `length` property the validators compare: that of a string, in UTF-16 code units,
      or of an array; anything else has none here, and `undefined < n` is false. */
  predicate LengthBelow(v: Value, n: int) {
    (v.Str? && Utf16Length(v.s) < n) || (v.Arr? && |v.items| < n)
  }

  /** `!v || v.length < n`: the shape of every "too short" test in the validators. */
  predicate MissingOrShort(v: Value, n: int) {
    !Truthy(v) || LengthBelow(v, n)
  }
}
