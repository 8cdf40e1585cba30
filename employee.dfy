/**
 * The new-employee form of the VPN screen: the five checks of `validate`
 * and the early return of `saveEmployee` when any of them fails.
 */
module EmployeeForm {

  /** The form's fields. */
  datatype Employee = Employee(name: string, password: string, password2: string)

  /** The form as the screen first shows it. */
  const InitEmployee := Employee("", "", "")

  /** The messages of `validate`, in the order it checks them. */
  const NameTooShort := "Completati numele cu cel putin 10 caractere."
  const NameCharacters := "Folositi doar literele " + "alfabetului si puncte, " + "fara spatiu sau alte caractere si litere mici."
  const PasswordTooShort := "Completati parola cu cel putin 10 caractere."
  const Password2Length := "Parola 2 trebuie sa fie de 8 caracatere " + "si sa includa doar cifre."
  const Password2Characters := "Folositi doar cifre la parola secundara."

  const Messages: seq<string> := [NameTooShort, NameCharacters, PasswordTooShort, Password2Length, Password2Characters]

  /** JavaScript's `length`: UTF-16 code units, two for a character beyond the Basic Multilingual Plane. */
  function Utf16Length(s: string): (n: nat)
    ensures |s| <= n <= 2 * |s|
  {
    if |s| == 0 then 0 else (if s[0] as int > 0xFFFF then 2 else 1) + Utf16Length(s[1..])
  }

  /** Without characters beyond the Basic Multilingual Plane, JavaScript's length is the character count. */
  lemma {:induction false} Utf16LengthBmp(s: string)
    requires forall i :: 0 <= i < |s| ==> s[i] as int <= 0xFFFF
    ensures Utf16Length(s) == |s|
  {
    if |s| > 0 {
      assert forall i :: 0 <= i < |s| - 1 ==> s[1..][i] == s[i + 1];
      Utf16LengthBmp(s[1..]);
    }
  }

  /** `/^[a-z.]+$/`: at least one character, each a lower-case ASCII letter or a dot. */
  predicate LowerLettersAndDots(s: string) {
    |s| > 0 && forall i :: 0 <= i < |s| ==> ('a' <= s[i] <= 'z' || s[i] == '.')
  }

  /** `/^[0-9.]+$/`: at least one character, each a digit or a dot. */
  predicate DigitsAndDots(s: string) {
    |s| > 0 && forall i :: 0 <= i < |s| ==> ('0' <= s[i] <= '9' || s[i] == '.')
  }

  /** Which of the five checks fail, in order. */
  function Failures(e: Employee): (fs: seq<bool>)
    ensures |fs| == |Messages|
  {
    [ Utf16Length(e.name) < 10,
      !LowerLettersAndDots(e.name),
      Utf16Length(e.password) < 10,
      Utf16Length(e.password2) != 8,
      !DigitsAndDots(e.password2) ]
  }

  /** The messages whose check failed, in order. */
  function Picked(ms: seq<string>, fs: seq<bool>): (r: seq<string>)
    requires |ms| == |fs|
    ensures |r| <= |ms|
  {
    if |ms| == 0 then []
    else Picked(ms[..|ms| - 1], fs[..|fs| - 1]) + (if fs[|fs| - 1] then [ms[|ms| - 1]] else [])
  }

  /** Picking from one more message appends it when its check fails. */
  lemma PickedStep(ms: seq<string>, fs: seq<bool>, k: nat)
    requires |ms| == |fs| && k < |ms|
    ensures Picked(ms[..k + 1], fs[..k + 1]) == Picked(ms[..k], fs[..k]) + (if fs[k] then [ms[k]] else [])
  {
    assert ms[..k + 1][..k] == ms[..k] && fs[..k + 1][..k] == fs[..k];
  }

  /** Picking splits at any position: every message of an earlier check comes before every message of a
      later one. */
  lemma {:induction false} PickedSplit(ms: seq<string>, fs: seq<bool>, k: nat)
    requires |ms| == |fs| && k <= |ms|
    ensures Picked(ms, fs) == Picked(ms[..k], fs[..k]) + Picked(ms[k..], fs[k..])
    decreases |ms|
  {
    if k == |ms| {
      assert ms[..k] == ms && fs[..k] == fs && ms[k..] == [];
    } else {
      var n := |ms| - 1;
      var left, right := ms[..n], fs[..n];
      var ks, kf := ms[k..], fs[k..];
      PickedSplit(left, right, k);
      assert left[..k] == ms[..k] && right[..k] == fs[..k];
      var a, b := Picked(ms[..k], fs[..k]), Picked(left[k..], right[k..]);
      var c := if fs[n] then [ms[n]] else [];
      assert ks[..n - k] == left[k..] && kf[..n - k] == right[k..];
      assert ks[n - k] == ms[n] && kf[n - k] == fs[n];
      assert Picked(ks, kf) == b + c;
      assert Picked(ms, fs) == (a + b) + c;
      assert (a + b) + c == a + (b + c);
    }
  }

  /** No message is picked exactly when no check fails. */
  lemma {:induction false} PickedEmpty(ms: seq<string>, fs: seq<bool>)
    requires |ms| == |fs|
    ensures Picked(ms, fs) == [] <==> forall i :: 0 <= i < |fs| ==> !fs[i]
    decreases |ms|
  {
    if |ms| > 0 {
      var n := |ms| - 1;
      PickedEmpty(ms[..n], fs[..n]);
      assert forall i :: 0 <= i < n ==> fs[..n][i] == fs[i];
    }
  }

  /** Every message is picked when every check fails. */
  lemma {:induction false} PickedAll(ms: seq<string>, fs: seq<bool>)
    requires |ms| == |fs|
    requires forall i :: 0 <= i < |fs| ==> fs[i]
    ensures Picked(ms, fs) == ms
    decreases |ms|
  {
    if |ms| > 0 {
      var n := |ms| - 1;
      PickedAll(ms[..n], fs[..n]);
      assert ms[..n] + [ms[n]] == ms;
    }
  }

  /** Every message picked is one of the messages. */
  lemma {:induction false} PickedOnly(ms: seq<string>, fs: seq<bool>)
    requires |ms| == |fs|
    ensures forall m :: m in Picked(ms, fs) ==> m in ms
    decreases |ms|
  {
    if |ms| > 0 {
      PickedOnly(ms[..|ms| - 1], fs[..|fs| - 1]);
    }
  }

  /** With distinct messages, a message is picked exactly when its check fails. */
  lemma {:induction false} PickedHas(ms: seq<string>, fs: seq<bool>, i: nat)
    requires |ms| == |fs| && i < |ms|
    requires forall j, k :: 0 <= j < k < |ms| ==> ms[j] != ms[k]
    ensures ms[i] in Picked(ms, fs) <==> fs[i]
    decreases |ms|
  {
    var n := |ms| - 1;
    if i == n {
      if !fs[n] {
        PickedOnly(ms[..n], fs[..n]);
      }
    } else {
      PickedHas(ms[..n], fs[..n], i);
      assert ms[i] != ms[n];
    }
  }

  /** Five conditional appends, in order, build the picked messages. */
  lemma PickedFive(ms: seq<string>, fs: seq<bool>, errors: seq<string>)
    requires |ms| == |fs| == 5
    requires errors == [] + (if fs[0] then [ms[0]] else []) + (if fs[1] then [ms[1]] else [])
      + (if fs[2] then [ms[2]] else []) + (if fs[3] then [ms[3]] else []) + (if fs[4] then [ms[4]] else [])
    ensures errors == Picked(ms, fs)
  {
    PickedStep(ms, fs, 0);
    PickedStep(ms, fs, 1);
    PickedStep(ms, fs, 2);
    PickedStep(ms, fs, 3);
    PickedStep(ms, fs, 4);
    assert ms[..5] == ms && fs[..5] == fs;
  }

  class Screen {
    /** The form being filled. */
    var employee: Employee
    var loading: bool
    /** The messages shown in the error box. */
    var err: seq<string>
    var saved: bool
    /** Every form handed to the backend, in order. */
    ghost var posted: seq<Employee>

    constructor ()
      ensures employee == InitEmployee && !loading && err == [] && !saved && posted == []
    {
      employee := InitEmployee;
      loading := false;
      err := [];
      saved := false;
      posted := [];
    }

    /** `validate()`: one message per failed check, in the order of the checks. */
    method Validate() returns (errors: seq<string>)
      ensures errors == Picked(Messages, Failures(employee))
    {
      var nameShort, nameChars := Utf16Length(employee.name) < 10, !LowerLettersAndDots(employee.name);
      var passwordShort := Utf16Length(employee.password) < 10;
      var password2Length, password2Chars := Utf16Length(employee.password2) != 8, !DigitsAndDots(employee.password2);
      errors := [];
      if nameShort {
        errors := errors + [NameTooShort];
      }
      if nameChars {
        errors := errors + [NameCharacters];
      }
      if passwordShort {
        errors := errors + [PasswordTooShort];
      }
      if password2Length {
        errors := errors + [Password2Length];
      }
      if password2Chars {
        errors := errors + [Password2Characters];
      }
      PickedFive(Messages, Failures(employee), errors);
    }

    /** `saveEmployee()` up to the request: the messages are cleared and `saved` reset; with any failed
        check the messages are shown and nothing is sent, otherwise the form is posted while loading. */
    method SaveEmployee()
      modifies this
      ensures employee == old(employee) && !saved
      ensures var errors := Picked(Messages, Failures(employee));
        if errors != [] then err == errors && loading == old(loading) && posted == old(posted)
        else err == [] && loading && posted == old(posted) + [employee]
    {
      var errors := Validate();
      err := [];
      saved := false;
      if |errors| > 0 {
        err := errors;
        return;
      }
      loading := true;
      posted := posted + [employee];
    }
  }

  /** The five messages are distinct. */
  lemma MessagesDistinct()
    ensures forall j, k :: 0 <= j < k < |Messages| ==> Messages[j] != Messages[k]
  {
    assert NameTooShort[0] == 'C' && NameTooShort[11] == 'n';
    assert NameCharacters[0] == 'F' && NameCharacters[14] == 'l';
    assert PasswordTooShort[0] == 'C' && PasswordTooShort[11] == 'p';
    assert Password2Length[0] == 'P';
    assert Password2Characters[0] == 'F' && Password2Characters[14] == 'c';
  }

  /** A message is shown exactly when its check fails; no message exactly when all five pass; at most five. */
  lemma ValidateMeaning(e: Employee)
    ensures var errors := Picked(Messages, Failures(e));
      && |errors| <= 5
      && (errors == [] <==> forall i :: 0 <= i < 5 ==> !Failures(e)[i])
      && (NameTooShort in errors <==> Utf16Length(e.name) < 10)
      && (NameCharacters in errors <==> !LowerLettersAndDots(e.name))
      && (PasswordTooShort in errors <==> Utf16Length(e.password) < 10)
      && (Password2Length in errors <==> Utf16Length(e.password2) != 8)
      && (Password2Characters in errors <==> !DigitsAndDots(e.password2))
  {
    MessagesDistinct();
    PickedEmpty(Messages, Failures(e));
    PickedHas(Messages, Failures(e), 0);
    PickedHas(Messages, Failures(e), 1);
    PickedHas(Messages, Failures(e), 2);
    PickedHas(Messages, Failures(e), 3);
    PickedHas(Messages, Failures(e), 4);
  }

  /** The blank form, as the screen first shows it, fails all five checks. */
  lemma ValidateBlank()
    ensures Picked(Messages, Failures(InitEmployee)) == Messages
  {
    PickedAll(Messages, Failures(InitEmployee));
  }

  /** A form that passes: a ten-character name of letters and a dot, a ten-character password and a
      secondary password of eight digits and dots. */
  const Accepted := Employee("ion.popesc", "abcdefghij", "12.34.56")

  /** Dots count as digits in the secondary password, and a dot is allowed in the name. */
  lemma AcceptedPasses()
    ensures Failures(Accepted) == [false, false, false, false, false]
  {
    AcceptedName();
    AcceptedPassword();
    AcceptedPassword2();
  }

  lemma AcceptedName()
    ensures Utf16Length(Accepted.name) == 10 && LowerLettersAndDots(Accepted.name)
  {
    var s := Accepted.name;
    assert forall i :: 0 <= i < |s| ==> 'a' <= s[i] <= 'z' || s[i] == '.';
    Utf16LengthBmp(s);
  }

  lemma AcceptedPassword()
    ensures Utf16Length(Accepted.password) == 10
  {
    Utf16LengthBmp(Accepted.password);
  }

  lemma AcceptedPassword2()
    ensures Utf16Length(Accepted.password2) == 8 && DigitsAndDots(Accepted.password2)
  {
    var s := Accepted.password2;
    assert forall i :: 0 <= i < |s| ==> '0' <= s[i] <= '9' || s[i] == '.';
    Utf16LengthBmp(s);
  }
}
