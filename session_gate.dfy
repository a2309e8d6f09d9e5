/**
 * The login gate: three independent field checks on the login form, and the
 * session that becomes active for the chosen branch once all three pass.
 * No credential is verified; the login is simulated.
 */
module SessionGate {

  /** The characters JavaScript's String.prototype.trim strips: white space and line terminators. */
  predicate IsWhitespace(c: char)
  {
    c == '\t' || c == '\n' || c == '\U{000B}' || c == '\U{000C}' || c == '\r' || c == ' '
    || c == '\U{00A0}' || c == '\U{1680}' || ('\U{2000}' <= c <= '\U{200A}')
    || c == '\U{2028}' || c == '\U{2029}' || c == '\U{202F}' || c == '\U{205F}'
    || c == '\U{3000}' || c == '\U{FEFF}'
  }

  predicate AllWhitespace(s: string)
  {
    forall k :: 0 <= k < |s| ==> IsWhitespace(s[k])
  }

  /** How many white-space characters open the string. */
  function LeadingSpaces(s: string): (n: nat)
    ensures n <= |s|
    ensures AllWhitespace(s[..n])
    ensures n == |s| || !IsWhitespace(s[n])
  {
    if s == [] || !IsWhitespace(s[0]) then 0
    else
      var m := LeadingSpaces(s[1..]);
      assert forall k :: 1 <= k < m + 1 ==> s[k] == s[1..][..m][k - 1];
      m + 1
  }

  /** How many white-space characters close the string. */
  function TrailingSpaces(s: string): (n: nat)
    ensures n <= |s|
    ensures AllWhitespace(s[|s| - n..])
    ensures n == |s| || !IsWhitespace(s[|s| - n - 1])
  {
    if s == [] || !IsWhitespace(s[|s| - 1]) then 0
    else
      var init := s[..|s| - 1];
      var m := TrailingSpaces(init);
      assert s[|s| - (m + 1)..] == init[|init| - m..] + [s[|s| - 1]];
      m + 1
  }

  /** The string with white space stripped from both ends. */
  function Trim(s: string): (r: string)
    ensures |r| <= |s|
    ensures r == [] || (!IsWhitespace(r[0]) && !IsWhitespace(r[|r| - 1]))
  {
    var i := LeadingSpaces(s);
    var rest := s[i..];
    var t := TrailingSpaces(rest);
    assert rest[..|rest| - t] == s[i..|s| - t];
    assert |rest| - t > 0 ==> rest[0] == s[i];
    s[i..|s| - t]
  }

  /**
   * Trim removes white space and nothing else, from both ends only: the
   * result is a slice of the input with only white space outside it, and it
   * neither starts nor ends with white space.
   */
  lemma TrimStripsEnds(s: string)
    ensures exists i, j :: 0 <= i <= j <= |s| && Trim(s) == s[i..j]
                           && AllWhitespace(s[..i]) && AllWhitespace(s[j..])
    ensures Trim(s) == [] || (!IsWhitespace(Trim(s)[0]) && !IsWhitespace(Trim(s)[|Trim(s)| - 1]))
  {
    var i := LeadingSpaces(s);
    var rest := s[i..];
    var t := TrailingSpaces(rest);
    var j := |s| - t;
    assert s[j..] == rest[|rest| - t..];
    assert Trim(s) == s[i..j];
  }

  datatype LoginError = UsernameTooShort | PasswordTooShort | BranchMissing

  /** Every failed check of the login form, in the order the form reports them. */
  function LoginErrors(username: string, password: string, branch: string): (errors: seq<LoginError>)
    ensures |errors| <= 3
    ensures errors == [] <==> |Trim(username)| >= 3 && |password| >= 3 && branch != ""
  {
    (if |Trim(username)| < 3 then [UsernameTooShort] else [])
    + (if |password| < 3 then [PasswordTooShort] else [])
    + (if branch == "" then [BranchMissing] else [])
  }

  /** The three checks of the login form, each run whatever the others found. */
  method ValidateLogin(username: string, password: string, branch: string)
    returns (ok: bool, errors: seq<LoginError>)
    ensures errors == LoginErrors(username, password, branch)
    ensures ok <==> |Trim(username)| >= 3 && |password| >= 3 && branch != ""
  {
    var name := Trim(username);
    ok := true;
    errors := [];
    if |name| < 3 {
      errors := errors + [UsernameTooShort];
      ok := false;
    }
    if |password| < 3 {
      errors := errors + [PasswordTooShort];
      ok := false;
    }
    if branch == "" {
      errors := errors + [BranchMissing];
      ok := false;
    }
    assert errors == (if |name| < 3 then [UsernameTooShort] else [])
                     + (if |password| < 3 then [PasswordTooShort] else [])
                     + (if branch == "" then [BranchMissing] else []);
  }

  /** Each check reports its own error, independently of the other two. */
  lemma LoginErrorsIndependent(username: string, password: string, branch: string)
    ensures UsernameTooShort in LoginErrors(username, password, branch) <==> |Trim(username)| < 3
    ensures PasswordTooShort in LoginErrors(username, password, branch) <==> |password| < 3
    ensures BranchMissing in LoginErrors(username, password, branch) <==> branch == ""
  {
    var u: seq<LoginError> := if |Trim(username)| < 3 then [UsernameTooShort] else [];
    var p: seq<LoginError> := if |password| < 3 then [PasswordTooShort] else [];
    var b: seq<LoginError> := if branch == "" then [BranchMissing] else [];
    assert LoginErrors(username, password, branch) == u + p + b;
  }

  /**
   * The form passes exactly when all three checks pass, and it reports one
   * error per failing check, never the same error twice.
   */
  lemma LoginPassesIff(username: string, password: string, branch: string)
    ensures LoginErrors(username, password, branch) == []
            <==> |Trim(username)| >= 3 && |password| >= 3 && branch != ""
    ensures |LoginErrors(username, password, branch)|
            == (if |Trim(username)| < 3 then 1 else 0) + (if |password| < 3 then 1 else 0)
               + (if branch == "" then 1 else 0)
    ensures var e := LoginErrors(username, password, branch);
            forall a, b :: 0 <= a < b < |e| ==> e[a] != e[b]
  {
  }

  /** Surrounding white space does not count towards the user name's length. */
  lemma PaddedShortNameFails(name: string, lpad: string, rpad: string, password: string, branch: string)
    requires |name| < 3
    requires AllWhitespace(lpad) && AllWhitespace(rpad)
    ensures UsernameTooShort in LoginErrors(lpad + name + rpad, password, branch)
  {
    var s := lpad + name + rpad;
    var i := LeadingSpaces(s);
    var rest := s[i..];
    var t := TrailingSpaces(rest);
    var j := |s| - t;
    assert forall k :: 0 <= k < |lpad| ==> IsWhitespace(s[k]);
    assert forall k :: |lpad| + |name| <= k < |s| ==> s[k] == rpad[k - |lpad| - |name|];
    assert i >= |lpad|;
    assert j <= |lpad| + |name| || j == i;
    assert |Trim(s)| == j - i;
  }

  /** A string that neither starts nor ends with white space is its own trim. */
  lemma TrimUntouched(s: string)
    requires s != [] && !IsWhitespace(s[0]) && !IsWhitespace(s[|s| - 1])
    ensures Trim(s) == s
  {
    assert LeadingSpaces(s) == 0;
    assert s[0..] == s;
    assert TrailingSpaces(s) == 0;
  }

  /** A user name that trimming leaves alone is checked by its own length. */
  lemma LoginErrorsUntrimmed(username: string, password: string, branch: string)
    requires username != [] && !IsWhitespace(username[0]) && !IsWhitespace(username[|username| - 1])
    ensures LoginErrors(username, password, branch)
            == (if |username| < 3 then [UsernameTooShort] else [])
               + (if |password| < 3 then [PasswordTooShort] else [])
               + (if branch == "" then [BranchMissing] else [])
  {
    TrimUntouched(username);
  }

  /** Two login attempts: a two-letter user name fails with only the user-name error; "alice"/"secret"/"CSE" passes. */
  lemma LoginScenarios()
    ensures LoginErrors("ab", "xyz", "CSE") == [UsernameTooShort]
    ensures LoginErrors("alice", "secret", "CSE") == []
  {
    LoginErrorsUntrimmed("ab", "xyz", "CSE");
    LoginErrorsUntrimmed("alice", "secret", "CSE");
  }

  /** Before login nothing is shown; after it, the catalogue and cart of the chosen branch. */
  datatype Gate = Unauthenticated | Active(branch: string)

  class Session {
    var gate: Gate

    constructor ()
      ensures gate == Unauthenticated
    {
      gate := Unauthenticated;
    }

    /** A login attempt: on any failed check nothing changes; otherwise the gate opens for the branch. */
    method SubmitLogin(username: string, password: string, branch: string)
      returns (errors: seq<LoginError>)
      modifies this
      ensures errors == LoginErrors(username, password, branch)
      ensures errors == [] ==> gate == Active(branch)
      ensures errors != [] ==> gate == old(gate)
    {
      var ok;
      ok, errors := ValidateLogin(username, password, branch);
      if !ok {
        return;
      }
      gate := Active(branch);
    }

    /** Picking another branch while active; the selector is hidden before login. */
    method SelectBranch(branch: string)
      modifies this
      ensures old(gate).Active? ==> gate == Active(branch)
      ensures old(gate).Unauthenticated? ==> gate == Unauthenticated
    {
      if gate.Active? {
        gate := Active(branch);
      }
    }
  }
}
