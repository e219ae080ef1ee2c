/** The join form of the web client (apps/frontend/src/components/room/JoinRoom.tsx):
    field validation, the decision to emit `room:join`, and the path the
    client navigates to once the relay acknowledges the join.

    Strings are JavaScript strings: `trim()` strips ECMAScript white space and
    line terminators, and `length` counts UTF-16 code units. */
module JoinRoom {
  import opened Protocol

  datatype Option<T> = None | Some(value: T)

  // Messages shown under the fields.
  const EMAIL_REQUIRED := "email is required."
  const EMAIL_TOO_SHORT := "email must be at least 3 characters."
  const ROOM_CODE_REQUIRED := "Room code is required."
  const JOIN_FAILED := "Failed to join room. Please try again."

  /** The minimum `email.length` the form accepts. */
  const MIN_EMAIL_LENGTH := 3

  /** The error state of the form: one message per field, "" for none. */
  datatype FormErrors = FormErrors(email: string, roomCode: string)

  const NO_ERRORS := FormErrors("", "")

  /** The characters `String.prototype.trim` strips: ECMAScript WhiteSpace
      (tab, vertical tab, form feed, no-break space, byte order mark and the
      Unicode space separators) and LineTerminator. */
  predicate IsWhitespace(c: char)
  {
    c == '\t' || c == '\n' || c == '\U{000B}' || c == '\U{000C}' || c == '\r' || c == ' ' ||
    c == '\U{00A0}' || c == '\U{1680}' || ('\U{2000}' <= c <= '\U{200A}') ||
    c == '\U{2028}' || c == '\U{2029}' || c == '\U{202F}' || c == '\U{205F}' ||
    c == '\U{3000}' || c == '\U{FEFF}'
  }

  /** Empty or white space only. */
  predicate IsBlank(s: string)
  {
    forall i | 0 <= i < |s| :: IsWhitespace(s[i])
  }

  /** `s` with its leading white space removed. */
  function TrimStart(s: string): (r: string)
    ensures |r| <= |s| && r == s[|s| - |r|..]
    ensures forall i | 0 <= i < |s| - |r| :: IsWhitespace(s[i])
    ensures r == [] || !IsWhitespace(r[0])
  {
    if s != [] && IsWhitespace(s[0]) then TrimStart(s[1..]) else s
  }

  /** `s` with its trailing white space removed. */
  function TrimEnd(s: string): (r: string)
    ensures |r| <= |s| && r == s[..|r|]
    ensures forall i | |r| <= i < |s| :: IsWhitespace(s[i])
    ensures r == [] || !IsWhitespace(r[|r| - 1])
  {
    if s != [] && IsWhitespace(s[|s| - 1]) then TrimEnd(s[..|s| - 1]) else s
  }

  /** `s.trim()`. */
  function Trim(s: string): string
  {
    TrimEnd(TrimStart(s))
  }

  /** `s.trim()` is empty exactly when `s` is blank. */
  lemma TrimIsEmptyIffBlank(s: string)
    ensures Trim(s) == "" <==> IsBlank(s)
  {
  }

  /** `s.length`: characters outside the Basic Multilingual Plane count twice,
      as a surrogate pair of UTF-16 code units. */
  function Utf16Length(s: string): (n: nat)
    ensures |s| <= n <= 2 * |s|
    ensures (forall i | 0 <= i < |s| :: (s[i] as int) < 0x1_0000) ==> n == |s|
  {
    if s == [] then 0
    else Utf16Length(s[..|s| - 1]) + (if (s[|s| - 1] as int) < 0x1_0000 then 1 else 2)
  }

  // ---------------------------------------------------------------------
  // validateForm
  // ---------------------------------------------------------------------

  /** What validation leaves on screen and whether the form may be submitted. */
  datatype Verdict = Verdict(errors: FormErrors, isValid: bool)

  /** The verdict on a form, field by field: a blank email is missing, a
      non-blank one under three code units is too short (padding counts: the
      length is taken before trimming), a blank room code is missing, and the
      room code has no other rule. */
  function Validate(email: string, roomCode: string): (v: Verdict)
    ensures v.errors.email == EMAIL_REQUIRED <==> IsBlank(email)
    ensures v.errors.email == EMAIL_TOO_SHORT <==> !IsBlank(email) && Utf16Length(email) < MIN_EMAIL_LENGTH
    ensures v.errors.email == "" <==> !IsBlank(email) && Utf16Length(email) >= MIN_EMAIL_LENGTH
    ensures v.errors.roomCode == ROOM_CODE_REQUIRED <==> IsBlank(roomCode)
    ensures v.errors.roomCode == "" <==> !IsBlank(roomCode)
    ensures v.isValid <==> v.errors == NO_ERRORS
  {
    var emailError :=
      if IsBlank(email) then EMAIL_REQUIRED
      else if Utf16Length(email) < MIN_EMAIL_LENGTH then EMAIL_TOO_SHORT
      else "";
    var roomCodeError := if IsBlank(roomCode) then ROOM_CODE_REQUIRED else "";
    Verdict(FormErrors(emailError, roomCodeError), emailError == "" && roomCodeError == "")
  }

  /** `validateForm`: fills in the error messages one check at a time. */
  method ValidateForm(email: string, roomCode: string) returns (newErrors: FormErrors, isValid: bool)
    ensures Verdict(newErrors, isValid) == Validate(email, roomCode)
  {
    TrimIsEmptyIffBlank(email);
    TrimIsEmptyIffBlank(roomCode);
    newErrors := NO_ERRORS;
    isValid := true;

    if Trim(email) == "" {
      newErrors := newErrors.(email := EMAIL_REQUIRED);
      isValid := false;
    } else if Utf16Length(email) < MIN_EMAIL_LENGTH {
      newErrors := newErrors.(email := EMAIL_TOO_SHORT);
      isValid := false;
    }

    if Trim(roomCode) == "" {
      newErrors := newErrors.(roomCode := ROOM_CODE_REQUIRED);
      isValid := false;
    }
  }

  /** Both fields are checked: a form with both fields blank reports both
      messages at once. */
  lemma BlankFormReportsBothErrors(email: string, roomCode: string)
    requires IsBlank(email) && IsBlank(roomCode)
    ensures Validate(email, roomCode) == Verdict(FormErrors(EMAIL_REQUIRED, ROOM_CODE_REQUIRED), false)
  {
  }

  /** The length rule counts the padding: " a " is long enough, "ab" is not,
      and one emoji plus one letter already makes three code units. */
  lemma EmailLengthIsUntrimmedUtf16()
    ensures Validate(" a ", "r1").errors.email == ""
    ensures Validate("ab", "r1").errors.email == EMAIL_TOO_SHORT
    ensures Validate("\U{1F600}a", "r1").errors.email == ""
  {
    assert !IsWhitespace('a');
    assert " a "[1] == 'a' && "ab"[0] == 'a';
    assert "\U{1F600}a"[1] == 'a';
    assert Utf16Length("\U{1F600}a") == 3 by {
      assert "\U{1F600}a"[..1] == "\U{1F600}";
      assert "\U{1F600}"[..0] == "";
    }
  }

  // ---------------------------------------------------------------------
  // handleSubmit
  // ---------------------------------------------------------------------

  /** The error state a submit leaves and the `room:join` requests it emits. */
  datatype Submission = Submission(errors: FormErrors, emits: seq<JoinRequest>)

  /** The effect of one submit. `shown` is the error state the handler closes
      over, the one rendered before this submit. When no socket is available
      the room-code message becomes JOIN_FAILED and the email message is taken
      from `shown`, not from this submit's validation. */
  function SubmitOutcome(shown: FormErrors, email: string, roomCode: string, hasSocket: bool): Submission
  {
    var v := Validate(email, roomCode);
    if !v.isValid then Submission(v.errors, [])
    else if !hasSocket then Submission(shown.(roomCode := JOIN_FAILED), [])
    else Submission(NO_ERRORS, [JoinRequest(email, roomCode)])
  }

  /** `room:join` is emitted once exactly when both fields pass and a socket
      exists, with the email and room code as typed, untrimmed. */
  lemma SubmitEmitsOnlyValidForms(shown: FormErrors, email: string, roomCode: string, hasSocket: bool)
    ensures SubmitOutcome(shown, email, roomCode, hasSocket).emits ==
              if !IsBlank(email) && Utf16Length(email) >= MIN_EMAIL_LENGTH && !IsBlank(roomCode) && hasSocket
              then [JoinRequest(email, roomCode)] else []
  {
  }

  /** A form that fails validation shows this submit's messages; a valid one
      sent to the relay shows none; a valid one with no socket shows
      JOIN_FAILED under the room code. */
  lemma SubmitErrorState(shown: FormErrors, email: string, roomCode: string, hasSocket: bool)
    ensures var s := SubmitOutcome(shown, email, roomCode, hasSocket);
            var v := Validate(email, roomCode);
            (!v.isValid ==> s.errors == v.errors && s.errors != NO_ERRORS) &&
            (v.isValid && hasSocket ==> s.errors == NO_ERRORS) &&
            (v.isValid && !hasSocket ==> s.errors == FormErrors(shown.email, JOIN_FAILED))
  {
  }

  /** On the no-socket path the email message of the previous render comes
      back although this submit's email is valid. */
  lemma StaleEmailErrorSurvives()
    ensures Validate("abc", "r1").errors.email == ""
    ensures SubmitOutcome(FormErrors(EMAIL_REQUIRED, ""), "abc", "r1", false).errors.email == EMAIL_REQUIRED
  {
    assert !IsWhitespace("abc"[0]) && !IsWhitespace("r1"[0]);
  }

  // ---------------------------------------------------------------------
  // handleRoomJoin
  // ---------------------------------------------------------------------

  const ROOM_PATH_PREFIX := "/room/"

  /** The room code a `/room/<code>` path names. */
  function RoomCodeOfPath(path: string): Option<string>
  {
    if |path| >= |ROOM_PATH_PREFIX| && path[..|ROOM_PATH_PREFIX|] == ROOM_PATH_PREFIX
    then Some(path[|ROOM_PATH_PREFIX|..])
    else None
  }

  /** `handleRoomJoin`: the path navigated to when the relay acknowledges a
      join; it names the acknowledged room code, verbatim. */
  function HandleRoomJoin(email: string, roomCode: string): (path: string)
    ensures RoomCodeOfPath(path) == Some(roomCode)
  {
    var path := ROOM_PATH_PREFIX + roomCode;
    assert path[..|ROOM_PATH_PREFIX|] == ROOM_PATH_PREFIX;
    path
  }

  /** Distinct room codes lead to distinct paths. */
  lemma RoomPathsAreDistinct(email: string, a: string, b: string)
    ensures HandleRoomJoin(email, a) == HandleRoomJoin(email, b) <==> a == b
  {
  }

  // ---------------------------------------------------------------------
  // The component's state.
  // ---------------------------------------------------------------------

  /** The form's React state and the requests it has emitted. Field edits
      (the inputs' onChange handlers) assign `email` and `roomCode` directly. */
  class JoinRoomForm {
    var email: string
    var roomCode: string
    var errors: FormErrors
    /** Whether `useSocket()` returned a socket. */
    const hasSocket: bool
    /** The `room:join` requests emitted so far. */
    var emitted: seq<JoinRequest>

    constructor (hasSocket: bool)
      ensures email == "" && roomCode == "" && errors == NO_ERRORS
      ensures this.hasSocket == hasSocket && emitted == []
    {
      email := "";
      roomCode := "";
      errors := NO_ERRORS;
      this.hasSocket := hasSocket;
      emitted := [];
    }

    /** `handleSubmit`. The state setters it calls before returning are
        applied in order, so the last value set is what remains. */
    method HandleSubmit()
      modifies this`errors, this`emitted
      ensures var s := SubmitOutcome(old(errors), email, roomCode, hasSocket);
              errors == s.errors && emitted == old(emitted) + s.emits
    {
      var shown := errors;
      var newErrors, isValid := ValidateForm(email, roomCode);
      errors := newErrors;

      if isValid {
        errors := NO_ERRORS;

        if !hasSocket {
          errors := shown.(roomCode := JOIN_FAILED);
          return;
        }

        emitted := emitted + [JoinRequest(email, roomCode)];
      }
    }
  }
}
