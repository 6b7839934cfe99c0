/**
 * What the server does not compute itself: the operating system (the exit
 * codes of `systemctl`, files written to disk), the random number generator,
 * the SHA-256 digest and the Telegram transport. Each becomes a parameter of
 * the model or a log of the calls the server makes.
 */
module Environment {
  import opened Wrappers

  /** `random.randint`: the `n`-th draw on `[a, b]`, always inside `[a, b]`. */
  type RandomSource = f: (nat, int, int) -> int | forall n: nat, a: int, b: int :: a <= b ==> a <= f(n, a, b) <= b
    witness (n: nat, a: int, b: int) => a

  /** A `sudo systemctl <action> <service>` shell invocation. */
  datatype ServiceCall = SystemctlStart(service: string) | SystemctlStop(service: string)

  function CommandLine(call: ServiceCall): string
  {
    match call
    case SystemctlStart(s) => "sudo systemctl start " + s
    case SystemctlStop(s) => "sudo systemctl stop " + s
  }

  /** The machine the server runs on. */
  class Host {
    /** The exit code that the `n`-th `systemctl` invocation reports. */
    const exitCode: nat -> int
    const randint: RandomSource
    /** `int(sha256(s.encode("utf-8")).hexdigest(), 16)`. */
    const sha256: string -> nat
    /** Every `systemctl` invocation so far, in order. */
    var calls: seq<ServiceCall>
    /** How many numbers `randint` has produced so far. */
    var draws: nat
    /** The files the server has written, by path. */
    var files: map<string, string>

    constructor (exitCode: nat -> int, randint: RandomSource, sha256: string -> nat)
      ensures this.exitCode == exitCode && this.randint == randint && this.sha256 == sha256
      ensures calls == [] && draws == 0 && files == map[]
    {
      this.exitCode := exitCode;
      this.randint := randint;
      this.sha256 := sha256;
      calls := [];
      draws := 0;
      files := map[];
    }

    /** `int(subprocess.call(CommandLine(call), shell=True))` */
    method Systemctl(call: ServiceCall) returns (code: int)
      modifies this`calls
      ensures calls == old(calls) + [call]
      ensures code == exitCode(|old(calls)|)
    {
      code := exitCode(|calls|);
      calls := calls + [call];
    }

    /** `randint(a, b)` */
    method RandInt(a: int, b: int) returns (r: int)
      requires a <= b
      modifies this`draws
      ensures draws == old(draws) + 1
      ensures r == randint(old(draws), a, b) && a <= r <= b
    {
      r := randint(draws, a, b);
      draws := draws + 1;
    }

    /** `open(path, "w").write(text)`: the file is replaced as a whole. */
    method WriteFile(path: string, text: string)
      modifies this`files
      ensures files == old(files)[path := text]
    {
      files := files[path := text];
    }
  }

  /** One `sendMessage` request of the Telegram Bot API. */
  datatype Sent = Sent(chatId: int, text: string, replyTo: Option<int>)

  /** The Telegram bot, seen from the server: the messages it was asked to send. */
  class Bot {
    var outbox: seq<Sent>

    constructor ()
      ensures outbox == []
    {
      outbox := [];
    }

    method SendMessage(chatId: int, text: string, replyTo: Option<int>)
      modifies this
      ensures outbox == old(outbox) + [Sent(chatId, text, replyTo)]
    {
      outbox := outbox + [Sent(chatId, text, replyTo)];
    }
  }
}
