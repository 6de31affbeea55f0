/** `toNativeVector`: copying a host byte buffer (a `Uint8Array` or anything
    with a `length`) into a native byte vector. */
module Marshal {
  import opened Host

  /** Whether the host value is `null` or `undefined`. */
  predicate Nullish(js: Value)
  {
    js.Null? || js.Undefined?
  }

  /** The bytes `toNativeVector` yields for `js`. */
  function Marshalled(js: Value): (r: seq<byte>)
  {
    if Nullish(js) then [] else Elements(js, Length(js), AsByte)
  }

  /** `toNativeVector`: null and undefined give an empty vector; anything else
      gives one byte per index below its `length`, each the coerced element. */
  method ToNativeVector(js: Value) returns (buf: seq<byte>)
    ensures Nullish(js) ==> buf == []
    ensures !Nullish(js) ==> |buf| == Length(js)
    ensures !Nullish(js) ==> forall i :: 0 <= i < |buf| ==> buf[i] == AsByte(Element(js, i))
    ensures buf == Marshalled(js)
  {
    if Nullish(js) {
      return [];
    }
    var length := Length(js);
    var a := new byte[length];
    var i := 0;
    while i < length
      invariant 0 <= i <= length
      invariant forall k :: 0 <= k < i ==> a[k] == AsByte(Element(js, k))
    {
      a[i] := AsByte(Element(js, i));
      i := i + 1;
    }
    buf := a[..];
  }

  /** The host array a `Uint8Array` holding `b` reads as: one integer per byte. */
  function HostBytes(b: seq<byte>): (js: Value)
    ensures js.Arr? && Length(js) == |b|
  {
    Arr(seq(|b|, i requires 0 <= i < |b| => Int(b[i] as int)))
  }

  /** Whether every element of a host array is an integer in byte range, as
      in a `Uint8Array`. */
  predicate IsByteArray(js: Value)
  {
    js.Arr? && forall i :: 0 <= i < |js.items| ==> js.items[i].Int? && 0 <= js.items[i].i < 0x100
  }

  /** Marshalling a byte buffer built on the host gives back the same bytes. */
  lemma MarshalHostBytes(b: seq<byte>)
    ensures Marshalled(HostBytes(b)) == b
  {
    var r := Marshalled(HostBytes(b));
    forall i | 0 <= i < |b|
      ensures r[i] == b[i]
    {
      assert Element(HostBytes(b), i) == Int(b[i] as int);
      ByteRoundTrip(b[i]);
    }
  }

  /** The other direction: a byte-valued host array is rebuilt exactly from
      its marshalled bytes. */
  lemma HostBytesOfMarshalled(js: Value)
    requires IsByteArray(js)
    ensures HostBytes(Marshalled(js)) == js
  {
    var b := Marshalled(js);
    var items := HostBytes(b).items;
    forall i | 0 <= i < |js.items|
      ensures items[i] == js.items[i]
    {
      assert b[i] == AsByte(Element(js, i));
    }
  }
}
