/** The header of every dashboard page: the signed-in user's name and the
    initials on the avatar. */
module DashboardHeader {
  import opened Wrappers
  import opened Text
  import opened Seqs
  import opened Payroll
  import opened Identity
  import opened EmployeesTable

  /** `userName.split(' ').map(n => n[0]).join('').toUpperCase().slice(0, 2)`:
      at most the first two initials of the greeting name. */
  function HeaderInitials(user: Option<AuthUser>): (r: string)
    ensures |r| == Min(2, |Filter(Split(UserName(user), ' '), NonEmpty)|)
    ensures r <= GetInitials(UserName(user))
  {
    Take(GetInitials(UserName(user)), 2)
  }

  /** Without a signed-in user the name is `User` and the avatar shows `U`. */
  lemma GuestInitials()
    ensures HeaderInitials(None) == "U"
  {
    SplitNoSep("User", ' ');
    FilterKeepsAll(["User"], NonEmpty);
  }

  /** A full name of space-separated words shows the upper-cased first letters
      of its first two words (one when it has a single word). */
  lemma FullNameInitials(user: AuthUser, words: seq<string>)
    requires |words| >= 1
    requires forall k | 0 <= k < |words| :: words[k] != [] && ' ' !in words[k]
    requires user.fullName == Some(Join(words, ' '))
    ensures |words| == 1 ==> HeaderInitials(Some(user)) == [UpperChar(words[0][0])]
    ensures |words| >= 2 ==> HeaderInitials(Some(user)) == [UpperChar(words[0][0]), UpperChar(words[1][0])]
  {
    InitialsOfWords(words);
    JoinHead(words, ' ');
  }
}
