/** NUL-terminated character buffers and the owned, nullable `char*` slots of
    the parameter record. */
module CStrings {

  /** What a NUL-terminated copy of `s` reads back as: everything before the
      first NUL character (`strcpy` and `std::string(const char*)` both stop there). */
  function CText(s: string): (r: string)
  {
    if s == [] || s[0] == '\0' then [] else [s[0]] + CText(s[1..])
  }

  /** The text read back is a NUL-free prefix of `s`, and it stops only at the
      end of `s` or at a NUL. */
  lemma {:induction false} CTextIsNulFreePrefix(s: string)
    ensures CText(s) <= s
    ensures '\0' !in CText(s)
    ensures |CText(s)| < |s| ==> s[|CText(s)|] == '\0'
  {
    if s != [] && s[0] != '\0' {
      CTextIsNulFreePrefix(s[1..]);
      assert CText(s) == [s[0]] + CText(s[1..]);
    }
  }

  /** A string without NUL characters is copied whole. */
  lemma {:induction false} CTextOfNulFree(s: string)
    requires '\0' !in s
    ensures CText(s) == s
  {
    if s != [] {
      assert s[0] in s;
      assert '\0' !in s[1..] by {
        forall k | 0 <= k < |s[1..]| ensures s[1..][k] != '\0' {
          assert s[1..][k] == s[k + 1];
        }
      }
      CTextOfNulFree(s[1..]);
      assert s == [s[0]] + s[1..];
    }
  }

  /** Whatever follows a NUL is never read back: a buffer holding `s`, then a
      NUL, then any tail reads back exactly as `s` does. */
  lemma {:induction false} CTextIgnoresTail(s: string, tail: string)
    ensures CText(s + ['\0'] + tail) == CText(s)
  {
    if s != [] && s[0] != '\0' {
      CTextIgnoresTail(s[1..], tail);
      assert (s + ['\0'] + tail)[1..] == s[1..] + ['\0'] + tail;
    }
  }

  /** The four owned `char*` fields of the parameter record. */
  datatype Slot = OutputProfile | CameraProfile | BadPixels | DarkFrame

  /** An owned `char*` slot: null, or a live heap buffer holding a C string. */
  datatype CString = NullPtr | Owned(text: string)

  /** The slot `setStringMember(dest, value)` leaves behind. */
  function Stored(value: string): (r: CString)
  {
    if value == "" then NullPtr else Owned(CText(value))
  }

  /** After `setStringMember`, the slot is null exactly when the value is
      empty; otherwise it holds the value's C text: a NUL-free prefix of the
      value that stops only at its end or at its first NUL, and so the whole
      value when the value has no NUL character. */
  lemma StoredCopiesValue(value: string)
    ensures Stored(value).NullPtr? <==> value == ""
    ensures value != "" ==> Stored(value).text <= value && '\0' !in Stored(value).text
    ensures value != "" && |Stored(value).text| < |value| ==> value[|Stored(value).text|] == '\0'
    ensures value != "" && '\0' !in value ==> Stored(value) == Owned(value)
  {
    CTextIsNulFreePrefix(value);
    if '\0' !in value {
      CTextOfNulFree(value);
    }
  }
}
