/** The User Profile page: the avatar's initials and the edit form's state. */
module UserProfilePage {
  import opened Seqs
  import opened Text
  import opened DataService

  /** `s.split(' ')`: the pieces between spaces, empty ones included; there
      is always one more piece than there are spaces. */
  function Split(s: string): (r: seq<string>)
    ensures |r| >= 1
    ensures forall k :: 0 <= k < |r| ==> ' ' !in r[k]
  {
    if s == [] then [[]]
    else
      var rest := Split(s[1..]);
      if s[0] == ' ' then [[]] + rest
      else [[s[0]] + rest[0]] + rest[1..]
  }

  /** `pieces.join(' ')`, the inverse of `Split`. */
  function JoinWithSpaces(pieces: seq<string>): string {
    if pieces == [] then []
    else if |pieces| == 1 then pieces[0]
    else pieces[0] + " " + JoinWithSpaces(pieces[1..])
  }

  /** Splitting loses nothing: joining the pieces back gives the original string. */
  lemma {:induction false} SplitJoin(s: string)
    ensures JoinWithSpaces(Split(s)) == s
  {
    if s != [] {
      var rest := Split(s[1..]);
      SplitJoin(s[1..]);
      if s[0] == ' ' {
        assert ([[]] + rest)[1..] == rest;
        assert s == " " + s[1..];
      } else if |rest| == 1 {
        assert s == [s[0]] + s[1..];
      } else {
        var pieces := [[s[0]] + rest[0]] + rest[1..];
        assert pieces[1..] == rest[1..];
        assert s == [s[0]] + s[1..];
      }
    }
  }

  /** `.map(piece => piece[0]).join('')`: the first character of each piece;
      an empty piece gives `undefined`, which `join` renders as nothing. */
  function FirstChars(pieces: seq<string>): (r: string)
    ensures |r| <= |pieces|
  {
    if pieces == [] then []
    else (if pieces[0] == [] then [] else [pieces[0][0]]) + FirstChars(pieces[1..])
  }

  /** `initials`: split on spaces, first character of each piece, joined, upper-cased. */
  function Initials(name: string): (r: string)
    ensures |r| <= |name|
  {
    FirstCharsAreWordStarts(name);
    Upper(FirstChars(Split(name)))
  }

  /** The pieces that are not empty, in order. */
  function NonEmptyPieces(pieces: seq<string>): seq<string> {
    Filter(pieces, (p: string) => p != [])
  }

  /** The k-th character taken is the first character of the k-th non-empty piece. */
  lemma {:induction false} FirstCharsOfNonEmptyPieces(pieces: seq<string>)
    ensures |FirstChars(pieces)| == |NonEmptyPieces(pieces)|
    ensures forall k :: 0 <= k < |FirstChars(pieces)| ==>
      NonEmptyPieces(pieces)[k] != [] && FirstChars(pieces)[k] == NonEmptyPieces(pieces)[k][0]
  {
    if pieces != [] {
      FirstCharsOfNonEmptyPieces(pieces[1..]);
    }
  }

  /** One initial per non-empty space-separated piece of the name, in order,
      each the upper-cased first character of its piece. */
  lemma InitialsPerPiece(name: string)
    ensures |Initials(name)| == |NonEmptyPieces(Split(name))|
    ensures forall k :: 0 <= k < |Initials(name)| ==>
      NonEmptyPieces(Split(name))[k] != [] && Initials(name)[k] == UpperChar(NonEmptyPieces(Split(name))[k][0])
  {
    FirstCharsOfNonEmptyPieces(Split(name));
  }

  /** The non-space characters that follow a space, or the start when `atStart`. */
  function WordStarts(s: string, atStart: bool): (r: string)
    ensures |r| <= |s|
  {
    if s == [] then []
    else (if s[0] != ' ' && atStart then [s[0]] else []) + WordStarts(s[1..], s[0] == ' ')
  }

  /** Taking first characters of the pieces is the same as taking every
      character that starts a word; the second half is the induction's
      companion statement for the string after an unfinished piece. */
  lemma {:induction false} FirstCharsAreWordStarts(s: string)
    ensures FirstChars(Split(s)) == WordStarts(s, true)
    ensures FirstChars(Split(s)[1..]) == WordStarts(s, false)
  {
    if s != [] {
      var rest := Split(s[1..]);
      FirstCharsAreWordStarts(s[1..]);
      if s[0] == ' ' {
        assert ([[]] + rest)[1..] == rest;
      } else {
        assert ([[s[0]] + rest[0]] + rest[1..])[1..] == rest[1..];
      }
    }
  }

  /** The initials are the upper-cased characters that start a word of the name. */
  lemma InitialsAreWordStarts(name: string)
    ensures Initials(name) == Upper(WordStarts(name, true))
  {
    FirstCharsAreWordStarts(name);
  }

  /** Inside a word no further character starts a word. */
  lemma {:induction false} NoWordStartsInsideWord(s: string)
    requires ' ' !in s
    ensures WordStarts(s, false) == []
  {
    if s != [] {
      assert ' ' !in s[1..] by {
        forall i | 0 <= i < |s[1..]| ensures s[1..][i] != ' ' {
          assert s[1..][i] == s[i + 1];
        }
      }
      NoWordStartsInsideWord(s[1..]);
    }
  }

  /** An empty name has no initials. */
  lemma InitialsOfEmptyName()
    ensures Initials("") == ""
  {
  }

  /** A name without spaces has its upper-cased first character as initials. */
  lemma InitialsOfSingleWord(name: string)
    requires name != [] && ' ' !in name
    ensures Initials(name) == [UpperChar(name[0])]
  {
    InitialsAreWordStarts(name);
    assert ' ' !in name[1..] by {
      forall i | 0 <= i < |name[1..]| ensures name[1..][i] != ' ' {
        assert name[1..][i] == name[i + 1];
      }
    }
    NoWordStartsInsideWord(name[1..]);
  }

  /** The profile form's state for the signed-in user. */
  class ProfileForm {
    var user: User
    var name: string
    var email: string
    var isEditing: bool

    /** The form starts from the user's stored name and email, not editing. */
    constructor (user: User)
      ensures this.user == user && name == user.name && email == user.email && !isEditing
    {
      this.user := user;
      name := user.name;
      email := user.email;
      isEditing := false;
    }

    /** "Edit Profile". */
    method StartEditing()
      modifies this`isEditing
      ensures isEditing
    {
      isEditing := true;
    }

    /** Typing in the name field. */
    method EditName(value: string)
      modifies this`name
      ensures name == value
    {
      name := value;
    }

    /** Typing in the email field. */
    method EditEmail(value: string)
      modifies this`email
      ensures email == value
    {
      email := value;
    }

    /** "Cancel": the fields go back to the stored name and email and editing ends. */
    method Cancel()
      modifies this`name, this`email, this`isEditing
      ensures name == user.name && email == user.email && !isEditing
    {
      name := user.name;
      email := user.email;
      isEditing := false;
    }

    /** "Save Changes": editing ends; the user record is not updated and the
        edited fields stay as typed. */
    method Submit()
      modifies this`isEditing
      ensures !isEditing
      ensures user == old(user) && name == old(name) && email == old(email)
    {
      isEditing := false;
    }
  }
}
