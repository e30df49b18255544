/** The shape of a room code: `customAlphabet(ALPHABET, ROOM_CODE_LENGTH)` in create-room. */
module RoomCodes {

  /** The `n` consecutive characters starting at `lo`. */
  function CharRange(lo: char, n: nat): (r: string)
    requires lo as int + n <= 0xD800
    ensures |r| == n && forall i :: 0 <= i < n ==> r[i] == (lo as int + i) as char
  {
    seq(n, i requires 0 <= i < n => (lo as int + i) as char)
  }

  /** "0123456789ABCDEFGHIJKLMNOPQRSTUVWXYZabcdefghijklmnopqrstuvwxyz" */
  const ALPHABET: string := CharRange('0', 10) + CharRange('A', 26) + CharRange('a', 26)

  const ROOM_CODE_LENGTH: nat := 13

  predicate IsAlphanumeric(c: char) {
    '0' <= c <= '9' || 'A' <= c <= 'Z' || 'a' <= c <= 'z'
  }

  /** What `nanoid()` can return: ROOM_CODE_LENGTH symbols of ALPHABET. */
  predicate IsRoomCode(s: string) {
    |s| == ROOM_CODE_LENGTH && forall i :: 0 <= i < |s| ==> s[i] in ALPHABET
  }

  lemma CharRangeMembership(lo: char, n: nat, c: char)
    requires lo as int + n <= 0xD800
    ensures c in CharRange(lo, n) <==> lo <= c && c as int < lo as int + n
  {
    if lo <= c && c as int < lo as int + n {
      assert CharRange(lo, n)[c as int - lo as int] == c;
    }
  }

  /** The alphabet has 62 symbols, exactly the ASCII digits and letters, each once. */
  lemma AlphabetIsAlphanumeric(c: char)
    ensures |ALPHABET| == 62
    ensures c in ALPHABET <==> IsAlphanumeric(c)
    ensures forall i, j :: 0 <= i < j < |ALPHABET| ==> ALPHABET[i] < ALPHABET[j]
  {
    CharRangeMembership('0', 10, c);
    CharRangeMembership('A', 26, c);
    CharRangeMembership('a', 26, c);
  }

  /** Every room code is 13 ASCII letters or digits, so it is never empty. */
  lemma RoomCodeShape(s: string)
    requires IsRoomCode(s)
    ensures |s| == 13 && s != ""
    ensures forall i :: 0 <= i < |s| ==> IsAlphanumeric(s[i])
  {
    forall i | 0 <= i < |s| ensures IsAlphanumeric(s[i]) {
      AlphabetIsAlphanumeric(s[i]);
    }
  }

  /** Room codes exist, so choosing one cannot fail. */
  lemma SomeRoomCode()
    ensures IsRoomCode("0000000000000")
  {
    assert ALPHABET[0] == '0';
  }
}
