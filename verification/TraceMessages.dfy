/** Recorded trace messages, and the tool calls paired with their results. */
module TraceMessages {
  import opened Common
  import opened TokenEstimate

  type Id = nat

  datatype Role = Tool | User | Other(name: Text)

  /** A tool call's arguments: their JSON text, its length in compact spacing, and whether it is an object. */
  datatype Arguments = Arguments(json: Text, chars: nat, isObject: bool)

  datatype Request = Request(id: Id, tool: Text, arguments: Arguments)

  datatype Message = Message(role: Role, content: Text, toolCallId: Option<Id>, toolCalls: seq<Request>, isError: bool)

  /** One paired call and result; `number` is the n of its id "tn". */
  datatype ToolCall = ToolCall(number: nat, sourceId: Id, tool: Text, arguments: Arguments, callIndex: nat,
                               resultIndex: nat, result: Text, isError: bool, pinned: bool)

  const PRESERVE_RECENT := 6

  predicate IsPinned(index: int, count: int) {
    index == 0 || index >= count - PRESERVE_RECENT
  }

  /** A number in decimal digits. */
  function Decimal(n: nat): (r: Text)
    ensures |r| > 0
  {
    if n < 10 then ['0' as int + n] else Decimal(n / 10) + ['0' as int + n % 10]
  }

  predicate IsDigits(digits: Text) {
    forall i :: 0 <= i < |digits| ==> '0' as int <= digits[i] <= '9' as int
  }

  /** The number some digits stand for. */
  function ValueOf(digits: Text): int {
    if digits == [] then 0 else 10 * ValueOf(digits[..|digits| - 1]) + digits[|digits| - 1] - '0' as int
  }

  /** The digits of a number stand for it, without a leading zero. */
  lemma {:induction false} DecimalReads(n: nat)
    ensures IsDigits(Decimal(n)) && ValueOf(Decimal(n)) == n
    ensures n > 0 ==> Decimal(n)[0] != '0' as int
  {
    if n >= 10 {
      DecimalReads(n / 10);
      assert Decimal(n)[..|Decimal(n)| - 1] == Decimal(n / 10);
    }
  }
}
