/** The two names `useProfile` derives for a user: the display name and its initials. */
module Profile {
  import opened Wrappers
  import opened Seqs
  import opened Text

  /**
   * `profile?.display_name || email.split('@')[0]`: the stored name when it is non-empty, otherwise the
   * text of the email before its first '@' (all of it when there is none).
   */
  function DisplayName(stored: Option<string>, email: string): (name: string)
    ensures Truthy(stored) ==> name == stored.value
    ensures !Truthy(stored) ==> && name <= email && '@' !in name
                                && (|name| < |email| ==> email[|name|] == '@')
  {
    SplitFirst(email, '@');
    if Truthy(stored) then stored.value else Split(email, '@')[0]
  }

  function NonEmpty(w: string): bool {
    w != ""
  }

  /** `name.toUpperCase().split(' ').filter(word => word)`: non-empty and free of spaces. */
  function Words(name: string): (ws: seq<string>)
    ensures forall i :: 0 <= i < |ws| ==> ws[i] != "" && ' ' !in ws[i]
  {
    var pieces := Split(ToUpper(name), ' ');
    SplitPieces(ToUpper(name), ' ');
    FilterMembership(pieces, NonEmpty);
    var ws := Filter(pieces, NonEmpty);
    assert forall i :: 0 <= i < |ws| ==> ws[i] in pieces && NonEmpty(ws[i]) by {
      forall i | 0 <= i < |ws| ensures ws[i] in pieces && NonEmpty(ws[i]) {
        assert ws[i] in ws;
      }
    }
    ws
  }

  /** `.map(word => word[0]).join('')` over non-empty words. */
  function FirstLetters(words: seq<string>): (r: string)
    requires forall i :: 0 <= i < |words| ==> words[i] != ""
    ensures |r| == |words| && forall i :: 0 <= i < |words| ==> r[i] == words[i][0]
  {
    if words == [] then ""
    else
      assert forall i :: 1 <= i < |words| ==> words[i] == words[1..][i - 1];
      [words[0][0]] + FirstLetters(words[1..])
  }

  /** `initials`: one letter per non-empty space-separated word of the upper-cased name, in order. */
  function Initials(name: string): (r: string)
    ensures |r| == |Words(name)|
    ensures forall i :: 0 <= i < |r| ==> r[i] == Words(name)[i][0]
  {
    FirstLetters(Words(name))
  }

  // ----- properties -----

  /** Initials hold no space and no lower-case ASCII letter. */
  lemma InitialsShape(name: string)
    ensures forall i :: 0 <= i < |Initials(name)| ==> Initials(name)[i] != ' ' && !('a' <= Initials(name)[i] <= 'z')
  {
    var up := ToUpper(name);
    var pieces := Split(up, ' ');
    FilterMembership(pieces, NonEmpty);
    SplitChars(up, ' ');
    forall i | 0 <= i < |Initials(name)| ensures Initials(name)[i] != ' ' && !('a' <= Initials(name)[i] <= 'z') {
      var w := Words(name)[i];
      assert w in Words(name);
      assert w[0] in w;
      assert w[0] in up;
      var k :| 0 <= k < |up| && up[k] == w[0];
    }
  }

  /** Every character of every piece occurs in the split string. */
  lemma {:induction false} SplitChars(s: string, sep: char)
    ensures forall p, c :: p in Split(s, sep) && c in p ==> c in s
  {
    if s != [] {
      SplitChars(s[1..], sep);
      var rest := Split(s[1..], sep);
      forall p, c | p in Split(s, sep) && c in p ensures c in s {
        if s[0] != sep && p == [s[0]] + rest[0] && c != s[0] {
          assert c in rest[0];
          assert rest[0] in rest;
        } else if c != s[0] {
          assert p in rest;
        }
      }
    }
  }

  /** Splitting at one separator splits the two sides independently. */
  lemma {:induction false} SplitConcat(a: string, b: string, sep: char)
    ensures Split(a + [sep] + b, sep) == Split(a, sep) + Split(b, sep)
  {
    if a == [] {
      assert [] + [sep] + b == [sep] + b;
      assert ([sep] + b)[1..] == b;
    } else {
      assert (a + [sep] + b)[1..] == a[1..] + [sep] + b;
      SplitConcat(a[1..], b, sep);
    }
  }

  lemma ToUpperConcat(a: string, b: string)
    ensures ToUpper(a + b) == ToUpper(a) + ToUpper(b)
  {
  }

  /** The words of two texts joined by a space are the words of each, in order. */
  lemma WordsConcat(a: string, b: string)
    ensures Words(a + " " + b) == Words(a) + Words(b)
  {
    ToUpperConcat(a + " ", b);
    ToUpperConcat(a, " ");
    assert ToUpper(" ") == " ";
    assert ToUpper(a + " " + b) == ToUpper(a) + [' '] + ToUpper(b);
    SplitConcat(ToUpper(a), ToUpper(b), ' ');
    FilterAppend(Split(ToUpper(a), ' '), Split(ToUpper(b), ' '), NonEmpty);
  }

  /** Leading, trailing and repeated spaces add no initials. */
  lemma ExtraSpacesIgnored(a: string, b: string)
    ensures Initials(" " + a) == Initials(a)
    ensures Initials(a + " ") == Initials(a)
    ensures Initials(a + "  " + b) == Initials(a + " " + b)
  {
    assert Words("") == [];
    WordsConcat("", a);
    assert "" + " " + a == " " + a;
    WordsConcat(a, "");
    assert a + " " + "" == a + " ";
    WordsConcat(a, " " + b);
    assert a + " " + (" " + b) == a + "  " + b;
    WordsConcat("", b);
    assert "" + " " + b == " " + b;
    WordsConcat(a, b);
    assert Words(a + "  " + b) == Words(a + " " + b);
  }

  /** A text without the separator is a single piece. */
  lemma {:induction false} SplitWhole(s: string, sep: char)
    requires sep !in s
    ensures Split(s, sep) == [s]
  {
    if s != [] {
      assert sep !in s[1..];
      SplitWhole(s[1..], sep);
      assert [s[0]] + s[1..] == s;
    }
  }

  /** A non-empty name without spaces is one word, upper-cased, and gives one initial. */
  lemma SingleWord(w: string)
    requires w != "" && ' ' !in w
    ensures Words(w) == [ToUpper(w)]
    ensures Initials(w) == [UpperChar(w[0])]
  {
    forall i | 0 <= i < |w| ensures ToUpper(w)[i] != ' ' {
      assert w[i] in w;
    }
    SplitWhole(ToUpper(w), ' ');
    assert Filter([ToUpper(w)], NonEmpty) == [ToUpper(w)];
  }

  /** "ann lee" has the initials "AL". */
  lemma TwoWordInitials()
    ensures Initials("ann lee") == "AL"
  {
    WordsConcat("ann", "lee");
    assert "ann" + " " + "lee" == "ann lee";
    SingleWord("ann");
    SingleWord("lee");
  }

  /** A user without a stored name and with an '@' in the address goes by the local part. */
  lemma LocalPartName(local: string, domain: string)
    requires '@' !in local
    ensures DisplayName(None, local + "@" + domain) == local
  {
    var email := local + "@" + domain;
    var name := DisplayName(None, email);
    assert email[|local|] == '@';
    assert name == email[..|name|];
    assert local == email[..|local|];
  }
}
