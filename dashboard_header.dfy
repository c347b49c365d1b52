/**
  The dashboard header's user badge: the name shown, its initials and the
  role label, each derived from the signed-in user with `||` fallbacks.
 */
module DashboardHeader {
  import opened Wrappers
  import opened Strings
  import opened Seqs

  /** The parts of the signed-in user the header reads; absent fields are `None`. */
  datatype User = User(email: Option<string>, fullName: Option<string>, role: Option<string>)

  /** `x || fallback` on an optional string: the fallback when absent or empty. */
  function OrElse(x: Option<string>, fallback: string): (r: string)
    ensures Given(x) ==> r == x.value
    ensures !Given(x) ==> r == fallback
  {
    if Given(x) then x.value else fallback
  }

  /** The part of the email before its first "@". */
  function EmailPrefix(email: Option<string>): (r: Option<string>)
    ensures email.None? ==> r.None?
    ensures email.Some? ==> r.Some? && '@' !in r.value && StartsWith(email.value, r.value)
    ensures email.Some? && r.value != email.value ==> email.value[|r.value|] == '@'
  {
    if email.None? then None
    else
      FirstPiece(email.value, '@');
      Some(Split(email.value, '@')[0])
  }

  /** `full_name || email.split("@")[0] || "User"`, with no user at all giving "User". */
  function DisplayName(user: Option<User>): (name: string)
    ensures name != []
    ensures user.None? ==> name == "User"
    ensures user.Some? && Given(user.value.fullName) ==> name == user.value.fullName.value
    ensures user.Some? && !Given(user.value.fullName) && Given(EmailPrefix(user.value.email)) ==>
      name == EmailPrefix(user.value.email).value
    ensures user.Some? && !Given(user.value.fullName) && !Given(EmailPrefix(user.value.email)) ==> name == "User"
  {
    if user.None? then "User"
    else OrElse(user.value.fullName, OrElse(EmailPrefix(user.value.email), "User"))
  }

  /** The first character of each word, nothing for an empty word. */
  function Firsts(words: seq<string>): (r: string)
    ensures |r| <= |words|
  {
    if words == [] then []
    else (if words[0] == [] then [] else [words[0][0]]) + Firsts(words[1..])
  }

  /** A word is a non-empty piece of the split. */
  function IsWord(): string -> bool
  {
    (w: string) => w != []
  }

  /** Empty words contribute nothing: taking first characters ignores them. */
  lemma {:induction false} FirstsIgnoresEmpty(words: seq<string>)
    ensures Firsts(words) == Firsts(Filter(words, IsWord()))
    decreases |words|
  {
    if words != [] {
      FirstsIgnoresEmpty(words[1..]);
      var rest := Filter(words[1..], IsWord());
      if words[0] != [] {
        assert Filter(words, IsWord()) == [words[0]] + rest;
        assert ([words[0]] + rest)[1..] == rest;
      } else {
        assert Filter(words, IsWord()) == rest;
      }
    }
  }

  /** Over non-empty words, the result is exactly their first characters. */
  lemma {:induction false} FirstsOfWords(words: seq<string>)
    requires forall i :: 0 <= i < |words| ==> words[i] != []
    ensures |Firsts(words)| == |words|
    ensures forall i :: 0 <= i < |words| ==> Firsts(words)[i] == words[i][0]
    decreases |words|
  {
    if words != [] {
      FirstsOfWords(words[1..]);
      assert Firsts(words) == [words[0][0]] + Firsts(words[1..]);
    }
  }

  /** `name.split(" ").map((n) => n[0]).join("").toUpperCase().slice(0, 2)` */
  function Initials(name: string): (r: string)
    ensures |r| <= 2
  {
    var all := UpperStr(Firsts(Split(name, ' ')));
    if |all| <= 2 then all else all[..2]
  }

  /**
    The initials are the upper-cased first characters of the first two
    non-empty space-separated words of the name (fewer when there are fewer
    words).
   */
  lemma InitialsOfWords(name: string)
    ensures var words := Filter(Split(name, ' '), IsWord());
      && |Initials(name)| == (if |words| < 2 then |words| else 2)
      && forall i :: 0 <= i < |Initials(name)| ==> Initials(name)[i] == Upper(words[i][0])
  {
    var words := Filter(Split(name, ' '), IsWord());
    FirstsIgnoresEmpty(Split(name, ' '));
    FirstsOfWords(words);
  }

  /** "Ada Lovelace" gives "AL": two words give their two upper-cased first letters. */
  lemma InitialsOfTwoWords(first: string, last: string)
    requires first != [] && last != []
    requires ' ' !in first && ' ' !in last
    ensures Initials(first + " " + last) == [Upper(first[0]), Upper(last[0])]
  {
    var name := first + " " + last;
    assert name == first + [' '] + last + [];
    SecondPiece(first, last, [], ' ');
    var parts := Split(name, ' ');
    var words := Filter(parts, IsWord());
    assert words == [first] + Filter(parts[1..], IsWord());
    assert parts[1..][0] == last;
    assert Filter(parts[1..], IsWord()) == [last] + Filter(parts[2..], IsWord());
    InitialsOfWords(name);
  }

  /** The role label, "student" unless the user's metadata names a non-empty role. */
  function RoleLabel(user: Option<User>): (role: string)
    ensures role != []
    ensures user.Some? && Given(user.value.role) ==> role == user.value.role.value
    ensures user.None? || !Given(user.value.role) ==> role == "student"
  {
    if user.None? then "student" else OrElse(user.value.role, "student")
  }
}
