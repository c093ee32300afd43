/** `MemberService`: validation of member ids and member documents, and the guards
    it puts in front of the member table. */
module Members {
  import opened CTypes
  import opened Text

  /** A member document as the service reads it: each field is the JSON text that
      `dump()` yields for it, so a string field arrives with its surrounding quotes. */
  datatype MemberDoc = MemberDoc(name: Bytes, gender: Bytes)

  const MAX_NAME_LENGTH: nat := 100
  const MALE: Bytes := [0x6D, 0x61, 0x6C, 0x65]             // "male"
  const FEMALE: Bytes := [0x66, 0x65, 0x6D, 0x61, 0x6C, 0x65] // "female"

  /** The text between the first and the last byte of a dumped field: what
      `d.substr(1, d.length() - 2)` gives once the dump is known to be longer than
      two bytes, and the inverse of quoting. */
  function Unquote(d: Bytes): (r: Bytes)
    requires |d| >= 2
    ensures |d| < SIZE_MODULUS ==> r == Substr(d, 1, SizeMinus(|d|, 2))
    ensures d == [d[0]] + r + [d[|d| - 1]]
  {
    d[1..|d| - 1]
  }

  /** Stripping the quotes of a quoted text gives the text back. */
  lemma UnquoteQuoted(a: byte, t: Bytes, b: byte)
    ensures Unquote([a] + t + [b]) == t
  {
    var d := [a] + t + [b];
    assert d[1..|d| - 1] == t;
  }

  /** A name byte that needs no excuse: ASCII letter or digit, space, `-` or `_`. */
  predicate IsPlainNameByte(b: byte) {
    IsAlnum(b) || b == SPACE || b == HYPHEN || b == UNDERSCORE
  }

  /** A lead byte of a three-byte UTF-8 sequence in U+A000..U+DFFF, the block
      holding the Hangul syllables. */
  predicate IsKoreanLeadByte(b: byte) {
    0xEA <= b <= 0xED
  }

  predicate HasKoreanByte(name: Bytes) {
    exists j :: 0 <= j < |name| && IsKoreanLeadByte(name[j])
  }

  /** The character rule on names: every byte is plain, or else the name contains
      at least one Korean lead byte anywhere in it. */
  predicate NameCharsOk(name: Bytes) {
    (forall i :: 0 <= i < |name| ==> IsPlainNameByte(name[i])) || HasKoreanByte(name)
  }

  /** What `validateMember` accepts: a quoted name of 1 to 100 bytes obeying the
      character rule, and a quoted gender that is `male` or `female`. */
  predicate ValidMember(m: MemberDoc) {
    && |m.name| > 2
    && |Unquote(m.name)| <= MAX_NAME_LENGTH
    && NameCharsOk(Unquote(m.name))
    && |m.gender| > 2
    && (Unquote(m.gender) == MALE || Unquote(m.gender) == FEMALE)
  }

  /** The Korean escape hatch is name-wide: once one Korean lead byte is present,
      every other byte of a name of acceptable length is let through, quotes and
      angle brackets included. */
  lemma KoreanHatchAdmitsAnyByte(name: Bytes, gender: Bytes, j: nat)
    requires 1 <= |name| <= MAX_NAME_LENGTH
    requires j < |name| && IsKoreanLeadByte(name[j])
    requires gender == MALE || gender == FEMALE
    ensures ValidMember(MemberDoc([0x22] + name + [0x22], [0x22] + gender + [0x22]))
  {
    var m := MemberDoc([0x22] + name + [0x22], [0x22] + gender + [0x22]);
    assert Unquote(m.name) == name;
    assert Unquote(m.gender) == gender;
    assert IsKoreanLeadByte(Unquote(m.name)[j]);
  }

  /** Without a Korean lead byte, a single byte outside the plain set rejects the name. */
  lemma ForeignByteRejects(m: MemberDoc, i: nat)
    requires |m.name| > 2 && i < |m.name| - 2
    requires !IsPlainNameByte(Unquote(m.name)[i]) && !HasKoreanByte(Unquote(m.name))
    ensures !ValidMember(m)
  {
  }

  /** The gender field passes exactly when its dump is `"male"` or `"female"` up to
      the choice of the enclosing bytes. */
  lemma GenderDumpLength(m: MemberDoc)
    requires ValidMember(m)
    ensures |m.gender| == 6 || |m.gender| == 8
    ensures |m.gender| == 6 ==> m.gender[1..5] == MALE
    ensures |m.gender| == 8 ==> m.gender[1..7] == FEMALE
  {
  }

  /** The service in front of the member table (`MySQLMemberRepository`), which is
      modelled as a map from id to stored document. */
  class MemberService {
    var members: map<Bytes, MemberDoc>

    /** Every row of the table passes validation; the service keeps this true. */
    ghost predicate Consistent()
      reads this
    {
      forall id :: id in members ==> ValidId(id) && ValidMember(members[id])
    }

    constructor (repository: map<Bytes, MemberDoc>)
      ensures members == repository
    {
      members := repository;
    }

    /** `validateId`: scans the id and stops at the first byte outside the id set. */
    method ValidateId(id: Bytes) returns (ok: bool)
      ensures ok == ValidId(id)
    {
      if |id| == 0 || |id| > 50 {
        return false;
      }
      for i := 0 to |id|
        invariant forall k :: 0 <= k < i ==> IsIdByte(id[k])
      {
        if !IsIdByte(id[i]) {
          return false;
        }
      }
      return true;
    }

    /** `validateMember`: length checks on the dumped fields, a scan of the name that
        on every foreign byte searches the whole name for a Korean lead byte, then
        the gender check. */
    method ValidateMember(m: MemberDoc) returns (ok: bool)
      ensures ok == ValidMember(m)
    {
      if |m.name| == 0 || |m.gender| == 0 {
        return false;
      }
      var name := m.name;
      if |name| <= 2 {
        return false;
      }
      name := name[1..|name| - 1];
      if |name| == 0 || |name| > MAX_NAME_LENGTH {
        return false;
      }
      for i := 0 to |name|
        invariant forall k :: 0 <= k < i ==> IsPlainNameByte(name[k]) || HasKoreanByte(name)
      {
        var c := name[i];
        if !IsPlainNameByte(c) {
          var isKorean := false;
          var j := 0;
          while j < |name|
            invariant 0 <= j <= |name|
            invariant isKorean ==> HasKoreanByte(name)
            invariant !isKorean ==> forall k :: 0 <= k < j ==> !IsKoreanLeadByte(name[k])
          {
            if IsKoreanLeadByte(name[j]) {
              isKorean := true;
              break;
            }
            j := j + 1;
          }
          if !isKorean {
            return false;
          }
        }
      }
      var gender := m.gender;
      if |gender| <= 2 {
        return false;
      }
      gender := gender[1..|gender| - 1];
      if gender != MALE && gender != FEMALE {
        return false;
      }
      return true;
    }

    /** `getMemberById`: an invalid id yields the empty document without a lookup. */
    method GetMemberById(id: Bytes) returns (r: Option<MemberDoc>)
      ensures !ValidId(id) ==> r == None
      ensures ValidId(id) ==> r == if id in members then Some(members[id]) else None
    {
      var valid := ValidateId(id);
      if !valid {
        return None;
      }
      if id in members {
        return Some(members[id]);
      }
      return None;
    }

    /** `memberExists`: false for an invalid id without a lookup. */
    method MemberExists(id: Bytes) returns (b: bool)
      ensures b <==> ValidId(id) && id in members
    {
      var valid := ValidateId(id);
      if !valid {
        return false;
      }
      return id in members;
    }

    /** `addMember`: inserts only a valid member under a valid id that is not yet taken. */
    method AddMember(id: Bytes, m: MemberDoc) returns (ok: bool)
      modifies this
      ensures ok <==> ValidId(id) && ValidMember(m) && id !in old(members)
      ensures members == if ok then old(members)[id := m] else old(members)
      ensures old(Consistent()) ==> Consistent()
    {
      var valid := ValidateId(id);
      if valid {
        valid := ValidateMember(m);
      }
      if !valid {
        return false;
      }
      if id in members {
        return false;
      }
      members := members[id := m];
      return true;
    }

    /** `updateMember`: replaces the entry of an existing valid id with a valid member. */
    method UpdateMember(id: Bytes, m: MemberDoc) returns (ok: bool)
      modifies this
      ensures ok <==> ValidId(id) && ValidMember(m) && id in old(members)
      ensures members == if ok then old(members)[id := m] else old(members)
      ensures members.Keys == old(members).Keys
      ensures old(Consistent()) ==> Consistent()
    {
      var valid := ValidateId(id);
      if valid {
        valid := ValidateMember(m);
      }
      if !valid {
        return false;
      }
      if id !in members {
        return false;
      }
      members := members[id := m];
      return true;
    }

    /** `deleteMember`: removes the entry of an existing valid id. */
    method DeleteMember(id: Bytes) returns (ok: bool)
      modifies this
      ensures ok <==> ValidId(id) && id in old(members)
      ensures members == if ok then old(members) - {id} else old(members)
      ensures id !in members || !ok
      ensures old(Consistent()) ==> Consistent()
    {
      var validId := ValidateId(id);
      if !validId {
        return false;
      }
      if id !in members {
        return false;
      }
      members := members - {id};
      return true;
    }
  }
}
