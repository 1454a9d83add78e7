/**
  The slice of the CosmWasm host that the vault sees: optional values and
  results, block time, coins, the caller's message info, the messages a
  contract hands back to the chain, and the payment check of `cw_utils`.
  Nothing here talks to a chain; messages are plain records of intent.
 */
module Host {

  datatype Option<+T> = None | Some(value: T) {
    /** Rust's `unwrap_or_default` on an `Option<String>` is `UnwrapOr("")`. */
    function UnwrapOr(default: T): T {
      match this
      case Some(v) => v
      case None => default
    }
  }

  datatype Result<+T, +E> = Ok(value: T) | Err(error: E)

  /** `cosmwasm_std::Timestamp` counts nanoseconds since the epoch. */
  type Timestamp = nat

  const NANOS_PER_SECOND: nat := 1_000_000_000

  /** `Timestamp::seconds`: whole seconds, rounded down. */
  function Seconds(t: Timestamp): (r: nat)
    ensures r * NANOS_PER_SECOND <= t < (r + 1) * NANOS_PER_SECOND
  {
    t / NANOS_PER_SECOND
  }

  const UINT128_LIMIT: int := 0x1_0000_0000_0000_0000_0000_0000_0000_0000

  type Uint128 = x: int | 0 <= x < UINT128_LIMIT

  type Addr = string

  type Denom = string

  datatype Coin = Coin(denom: Denom, amount: Uint128)

  datatype Env = Env(blockTime: Timestamp, contractAddr: Addr)

  datatype MessageInfo = MessageInfo(sender: Addr, funds: seq<Coin>)

  /** Attribute values; numbers are rendered in decimal by the host. */
  datatype Value = Text(text: string) | Number(number: nat)

  datatype Attribute = Attribute(key: string, value: Value)

  datatype Event = Event(kind: string, attributes: seq<Attribute>)

  /** Token-factory messages, reduced to who asks for what. */
  datatype CosmosMsg =
    | Mint(sender: Addr, coin: Coin, mintTo: Addr)
    | Burn(sender: Addr, coin: Coin, burnFrom: Addr)
    | CreateDenom(sender: Addr, subdenom: string)

  datatype ReplyOn = ReplyAlways | ReplySuccess | ReplyError | ReplyNever

  datatype SubMsg = SubMsg(id: nat, msg: CosmosMsg, replyOn: ReplyOn)

  datatype Response = Response(messages: seq<SubMsg>, attributes: seq<Attribute>, events: seq<Event>)

  const EmptyResponse: Response := Response([], [], [])

  /** `Response::add_message`: a plain message is a submessage with id 0 that never replies. */
  function AddMessage(r: Response, m: CosmosMsg): (r': Response)
    ensures r'.messages == r.messages + [SubMsg(0, m, ReplyNever)]
    ensures r'.attributes == r.attributes && r'.events == r.events
  {
    r.(messages := r.messages + [SubMsg(0, m, ReplyNever)])
  }

  /** A response that carries one event without attributes and nothing else. */
  function EventOnly(kind: string): Response {
    Response([], [], [Event(kind, [])])
  }

  datatype StdError = GenericErr(msg: string) | NotFound(kind: string)

  datatype PaymentError = NoFunds | MultipleDenoms | MissingDenom(denom: Denom)

  /** The funds are one coin, of `denom`, with a nonzero amount. */
  predicate PaysExactly(funds: seq<Coin>, denom: Denom) {
    |funds| == 1 && funds[0].denom == denom && funds[0].amount > 0
  }

  /**
    `cw_utils::must_pay`, with the library's semantics (its code is not part of
    this model): no coin or a zero coin is `NoFunds`, several coins are
    `MultipleDenoms`, one coin of another denom is `MissingDenom`.
   */
  function MustPay(funds: seq<Coin>, denom: Denom): (r: Result<Uint128, PaymentError>)
    ensures r.Ok? <==> PaysExactly(funds, denom)
    ensures r.Ok? ==> r.value == funds[0].amount && r.value > 0
    ensures |funds| > 1 ==> r == Err(MultipleDenoms)
    ensures |funds| == 0 ==> r == Err(NoFunds)
  {
    if |funds| == 0 then Err(NoFunds)
    else if |funds| > 1 then Err(MultipleDenoms)
    else if funds[0].amount == 0 then Err(NoFunds)
    else if funds[0].denom != denom then Err(MissingDenom(denom))
    else Ok(funds[0].amount)
  }
}
