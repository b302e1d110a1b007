/** The header list of a response: fields in the order they were set, names in any case. */
module HeaderList {
  import opened Octets
  import opened Wrappers

  /** A field value that reads as a decimal number, or any other. */
  datatype Value = Number(n: nat) | Text(text: string)

  type Field = (string, Value)

  type Fields = seq<Field>

  function LowerChar(c: char): char {
    if 'A' <= c <= 'Z' then ((c as int) + 32) as char else c
  }

  function Lower(s: string): (r: string)
    ensures |r| == |s|
    ensures forall i :: 0 <= i < |s| ==> r[i] == LowerChar(s[i])
  {
    seq(|s|, i requires 0 <= i < |s| => LowerChar(s[i]))
  }

  const UPPER := "ABCDEFGHIJKLMNOPQRSTUVWXYZ"
  const LOWER := "abcdefghijklmnopqrstuvwxyz"

  /** The letters are folded, and nothing else. */
  lemma CaseIsFolded(c: char)
    ensures forall i :: 0 <= i < 26 ==> LowerChar(UPPER[i]) == LOWER[i]
    ensures c !in UPPER ==> LowerChar(c) == c
  {
    if 'A' <= c <= 'Z' {
      assert UPPER[c as int - 65] == c;
    }
  }

  predicate Named(f: Field, key: string) {
    Lower(f.0) == Lower(key)
  }

  predicate HasKey(h: Fields, key: string) {
    exists f :: f in h && Named(f, key)
  }

  /** `get`: the first of that name. */
  function Get(h: Fields, key: string): Option<Value> {
    if h == [] then None else if Named(h[0], key) then Some(h[0].1) else Get(h[1..], key)
  }

  /** What `delete` leaves. */
  function Without(h: Fields, key: string): Fields {
    if h == [] then [] else (if Named(h[0], key) then [] else [h[0]]) + Without(h[1..], key)
  }

  /** The values of all fields of a name. */
  function Values(h: Fields, key: string): seq<Value> {
    if h == [] then [] else (if Named(h[0], key) then [h[0].1] else []) + Values(h[1..], key)
  }

  /** `update`. */
  function Put(h: Fields, key: string, v: Value): Fields {
    Without(h, key) + [(key, v)]
  }

  /** A name in another case names the same fields. */
  lemma {:induction false} SameName(h: Fields, a: string, b: string)
    requires Lower(a) == Lower(b)
    ensures Values(h, a) == Values(h, b) && Get(h, a) == Get(h, b) && (HasKey(h, a) <==> HasKey(h, b))
  {
    if h != [] {
      SameName(h[1..], a, b);
    }
    ValuesAreKeys(h, a);
    ValuesAreKeys(h, b);
  }

  lemma {:induction false} ValuesAppend(a: Fields, b: Fields, key: string)
    ensures Values(a + b, key) == Values(a, key) + Values(b, key)
  {
    if a == [] {
      assert a + b == b;
    } else {
      hide Named;
      assert (a + b)[0] == a[0] && (a + b)[1..] == a[1..] + b;
      ValuesAppend(a[1..], b, key);
      Associative(if Named(a[0], key) then [a[0].1] else [], Values(a[1..], key), Values(b, key));
    }
  }

  /** A name is present exactly when it has a value, and the first value is the one found. */
  lemma {:induction false} ValuesAreKeys(h: Fields, key: string)
    ensures HasKey(h, key) <==> Values(h, key) != []
    ensures Get(h, key) == if Values(h, key) == [] then None else Some(Values(h, key)[0])
  {
    if h != [] {
      ValuesAreKeys(h[1..], key);
      assert h == [h[0]] + h[1..];
      assert HasKey(h, key) <==> Named(h[0], key) || HasKey(h[1..], key);
    }
  }

  /** `delete` removes every field of the name, whatever its case, and keeps the others in order. */
  lemma {:induction false} DeletedOnly(h: Fields, key: string, other: string)
    ensures Values(Without(h, key), other) == if Lower(key) == Lower(other) then [] else Values(h, other)
    ensures forall f :: f in Without(h, key) <==> f in h && !Named(f, key)
  {
    if h != [] {
      DeletedOnly(h[1..], key, other);
      var head := if Named(h[0], key) then [] else [h[0]];
      assert h == [h[0]] + h[1..];
      ValuesAppend(head, Without(h[1..], key), other);
      if head != [] {
        assert head[1..] == [];
      }
    }
  }

  /** After `update` there is one field of the name, with the new value; other names are as before. */
  lemma PutIsOnly(h: Fields, key: string, v: Value, other: string)
    ensures Values(Put(h, key, v), other) == if Lower(key) == Lower(other) then [v] else Values(h, other)
  {
    DeletedOnly(h, key, other);
    ValuesAppend(Without(h, key), [(key, v)], other);
    assert [(key, v)][1..] == [];
  }

  lemma {:induction false} WithoutAbsent(h: Fields, key: string)
    requires forall f :: f in h ==> !Named(f, key)
    ensures Without(h, key) == h
  {
    if h != [] {
      assert h == [h[0]] + h[1..];
      WithoutAbsent(h[1..], key);
    }
  }

  lemma {:induction false} WithoutOne(h: Fields, key: string, i: nat)
    requires i < |h| && Named(h[i], key)
    ensures Without(h[..i] + h[i + 1..], key) == Without(h, key)
  {
    if i == 0 {
      assert h[..0] + h[1..] == h[1..];
    } else {
      var rest := h[..i] + h[i + 1..];
      assert rest[1..] == h[1..][..i - 1] + h[1..][i..];
      WithoutOne(h[1..], key, i - 1);
    }
  }

  // ----- the object -----------------------------------------------------------------------------------

  class ReplyHeaders {
    var fields: Fields

    constructor (fields: Fields)
      ensures this.fields == fields
    {
      this.fields := fields;
    }

    method Has(key: string) returns (found: bool)
      ensures found <==> HasKey(fields, key)
    {
      found := false;
      for i := 0 to |fields|
        invariant found <==> exists f :: f in fields[..i] && Named(f, key)
      {
        assert fields[..i + 1] == fields[..i] + [fields[i]];
        if Named(fields[i], key) {
          found := true;
        }
      }
      assert fields[..|fields|] == fields;
    }

    method Find(key: string) returns (value: Option<Value>)
      ensures value == Get(fields, key)
    {
      for i := 0 to |fields|
        invariant Get(fields, key) == Get(fields[i..], key)
      {
        if Named(fields[i], key) {
          return Some(fields[i].1);
        }
      }
      return None;
    }

    method Set(key: string, value: Value)
      modifies this
      ensures fields == old(fields) + [(key, value)]
    {
      fields := fields + [(key, value)];
    }

    /** The source removes the first field of the name and starts over. */
    method Delete(key: string)
      modifies this
      ensures fields == Without(old(fields), key)
      decreases |fields|
    {
      var index, found := 0, false;
      while index < |fields| && !found
        invariant index <= |fields|
        invariant forall j :: 0 <= j < index ==> !Named(fields[j], key)
        invariant found ==> index < |fields| && Named(fields[index], key)
        decreases |fields| - index, !found
      {
        if Named(fields[index], key) {
          found := true;
        } else {
          index := index + 1;
        }
      }
      if found {
        WithoutOne(fields, key, index);
        fields := fields[..index] + fields[index + 1..];
        Delete(key);
      } else {
        WithoutAbsent(fields, key);
      }
    }

    method Update(key: string, value: Value)
      modifies this
      ensures fields == Put(old(fields), key, value)
    {
      Delete(key);
      Set(key, value);
    }
  }
}
