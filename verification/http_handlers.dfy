/** The request validator (src/common/utils/httpHandlers.ts). A schema is
    applied to the bundle of body, query and path parameters; its rejection is
    the ordered list of the violated constraints' messages. */
module Validation {
  import opened Wrappers
  import opened AppCodes
  import opened AppErrors

  const Prefix := "Invalid input: "
  const Separator := ", "

  /** `msgs.join(", ")`. */
  function Join(msgs: seq<string>): string {
    if |msgs| == 0 then ""
    else if |msgs| == 1 then msgs[0]
    else Join(msgs[..|msgs| - 1]) + Separator + msgs[|msgs| - 1]
  }

  /** The message contains the separator somewhere. */
  predicate HasSeparator(m: string) {
    exists i :: 0 <= i < |m| - 1 && m[i] == ',' && m[i + 1] == ' '
  }

  /** Cuts a string at every separator, scanning left to right; the inverse
      reading of `Join`. */
  function Split(s: string): (parts: seq<string>)
    ensures |parts| >= 1
    decreases |s|
  {
    if |s| < 2 then [s]
    else if s[0] == ',' && s[1] == ' ' then [""] + Split(s[2..])
    else
      var rest := Split(s[1..]);
      [[s[0]] + rest[0]] + rest[1..]
  }

  /** `validateRequest(schema)`: the schema's answer for the bundle decides;
      on acceptance the bundle passes on as it came (the parsed value is
      dropped), on rejection an INVALID_INPUT error whose message lists the
      violations is passed on instead. */
  function ValidateRequest<B>(schema: B -> seq<string>, bundle: B): (r: Result<B, AppError>)
    ensures r.Success? <==> schema(bundle) == []
    ensures r.Success? ==> r.value == bundle
    ensures r.Failure? ==> r.error.codeKey == INVALID_INPUT && FromTable(r.error)
    ensures r.Failure? ==> r.error.code == 1100 && r.error.statusCode == 400
    ensures r.Failure? ==> r.error.message == Prefix + Join(schema(bundle))
  {
    var violations := schema(bundle);
    if violations == [] then Success(bundle)
    else Failure(WithMessage(NewAppError(INVALID_INPUT), Prefix + Join(violations)))
  }

  /** Splitting a message without a separator, followed by the separator and
      any tail, yields that message then the pieces of the tail. */
  lemma {:induction false} SplitAtFirstSeparator(m: string, tail: string)
    requires !HasSeparator(m)
    ensures Split(m + Separator + tail) == [m] + Split(tail)
    decreases |m|
  {
    if |m| == 0 {
      assert m + Separator + tail == Separator + tail;
      assert (Separator + tail)[2..] == tail;
    } else {
      var s := m + Separator + tail;
      var m' := m[1..];
      NoSeparatorInTail(m);
      assert s[1..] == m' + Separator + tail;
      assert !(s[0] == ',' && s[1] == ' ') by {
        if |m'| > 0 {
          assert s[0] == m[0] && s[1] == m[1];
        } else {
          assert s[1] == ',';
        }
      }
      SplitAtFirstSeparator(m', tail);
      assert [m[0]] + m' == m;
    }
  }

  /** Dropping the first character cannot create a separator. */
  lemma NoSeparatorInTail(m: string)
    requires |m| >= 1 && !HasSeparator(m)
    ensures !HasSeparator(m[1..])
  {
    var m' := m[1..];
    forall i | 0 <= i < |m'| - 1
      ensures !(m'[i] == ',' && m'[i + 1] == ' ')
    {
      assert m'[i] == m[i + 1] && m'[i + 1] == m[i + 2];
    }
  }

  /** A message without a separator splits to itself. */
  lemma {:induction false} SplitPlain(m: string)
    requires !HasSeparator(m)
    ensures Split(m) == [m]
    decreases |m|
  {
    if |m| >= 2 {
      var m' := m[1..];
      NoSeparatorInTail(m);
      assert !(m[0] == ',' && m[1] == ' ');
      SplitPlain(m');
      assert [m[0]] + m' == m;
    }
  }

  /** Round trip: when no violation message contains the separator, the
      aggregated list splits back into exactly the violations, in order. */
  lemma {:induction false} SplitJoin(msgs: seq<string>)
    requires |msgs| >= 1
    requires forall i :: 0 <= i < |msgs| ==> !HasSeparator(msgs[i])
    ensures Split(Join(msgs)) == msgs
  {
    if |msgs| == 1 {
      SplitPlain(msgs[0]);
    } else {
      JoinFront(msgs);
      SplitAtFirstSeparator(msgs[0], Join(msgs[1..]));
      SplitJoin(msgs[1..]);
      assert [msgs[0]] + msgs[1..] == msgs;
    }
  }

  /** `Join` read from the front. */
  lemma {:induction false} JoinFront(msgs: seq<string>)
    requires |msgs| >= 2
    ensures Join(msgs) == msgs[0] + Separator + Join(msgs[1..])
    decreases |msgs|
  {
    if |msgs| == 2 {
      assert msgs[..1] == [msgs[0]];
      assert msgs[1..] == [msgs[1]];
    } else {
      var init := msgs[..|msgs| - 1];
      JoinFront(init);
      assert init[1..] == msgs[1..][..|msgs[1..]| - 1];
      assert init[0] == msgs[0];
    }
  }

  /** The rejection message of the validator names every violation, in order:
      it is the prefix followed by text that splits back into them. */
  lemma RejectionListsViolations<B>(schema: B -> seq<string>, bundle: B)
    requires schema(bundle) != []
    requires forall i :: 0 <= i < |schema(bundle)| ==> !HasSeparator(schema(bundle)[i])
    ensures var r := ValidateRequest(schema, bundle);
            r.Failure? && r.error.message[..|Prefix|] == Prefix
            && Split(r.error.message[|Prefix|..]) == schema(bundle)
  {
    var r := ValidateRequest(schema, bundle);
    assert r.error.message[|Prefix|..] == Join(schema(bundle));
    SplitJoin(schema(bundle));
  }
}
