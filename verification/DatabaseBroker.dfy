/** The host of the engine, which checks each request against the one transaction it may have open (host.ts). */
module EngineHosts {
  type ClientId = nat

  type Token = nat

  datatype Option<+T> = None | Some(value: T)

  /** What a statement runs: a text, a statement the engine prepared, or a script. */
  datatype Target = Sql(sql: nat) | Prepared(statement: nat) | Script(sql: nat)

  datatype Call =
    | Execute(target: Target, token: Option<Token>)
    | Prepare(sql: nat)
    | ClosePrepared(statement: nat)
    | Begin
    | Commit(ending: Token)
    | Rollback(ending: Token)
    | Check

  /** A statement the engine ran: for whom, under which token, and with which transaction open. */
  datatype Run = Run(client: ClientId, target: Target, token: Option<Token>, open: Option<Token>)

  /** A request the host served, and what it answered. */
  datatype Answer = Answer(call: Call, ok: bool, value: nat)

  /** What the host has open, and all it did: what it ran, what it committed, what it answered, and the text of each
      statement it prepared. */
  datatype Record = Record(active: Option<Token>, runs: seq<Run>, committed: seq<Token>, answers: seq<Answer>,
                           texts: map<nat, nat>)

  /** What a statement's call adds to what the engine ran: itself, if it names the transaction that is open. */
  ghost function Ran(was: seq<Run>, call: Call, client: ClientId, active: Option<Token>): seq<Run>
    requires call.Execute?
  {
    if call.token == active then was + [Run(client, call.target, call.token, active)] else was
  }

  /** Whether `now` is what a request may leave. The engine may refuse it, but only after the transaction it names was
      checked. */
  ghost predicate Serves(was: Record, now: Record, call: Call, client: ClientId, ok: bool, value: nat) {
    && now.answers == was.answers + [Answer(call, ok, value)]
    && now.runs == (if call.Execute? then Ran(was.runs, call, client, was.active) else was.runs)
    && now.committed == was.committed + (if call.Commit? && ok then [call.ending] else [])
    && now.texts == (if call.Prepare? && ok then was.texts[value := call.sql] else was.texts)
    && match call
       case Execute(_, token) => now.active == was.active && (ok ==> token == was.active)
       case Prepare(_) => now.active == was.active && (ok ==> was.active == None && value !in was.texts)
       case ClosePrepared(_) | Check => now.active == was.active && (ok ==> was.active == None)
       case Begin => if ok then was.active == None && now.active == Some(value) else now.active == was.active
       case Commit(ending) =>
         if was.active != Some(ending) then !ok && now.active == was.active
         else now.active == None || (!ok && now.active == was.active)
       case Rollback(ending) =>
         if ok then was.active == Some(ending) && now.active == None else now.active == was.active
  }

  class Host {
    var active: Option<Token>
    var nextToken: nat
    var nextStatement: nat
    ghost var runs: seq<Run>
    ghost var committed: seq<Token>
    ghost var answers: seq<Answer>
    ghost var texts: map<nat, nat>

    ghost function Now(): Record
      reads this
    {
      Record(active, runs, committed, answers, texts)
    }

    /** A statement runs only under the token of the transaction that is open, and with none only where none is. */
    ghost predicate Valid()
      reads this
    {
      && (active.Some? ==> active.value < nextToken)
      && (forall statement :: statement in texts ==> statement < nextStatement)
      && forall i :: 0 <= i < |runs| ==> runs[i].token == runs[i].open
    }

    constructor ()
      ensures Valid() && Now() == Record(None, [], [], [], map[]) && nextToken == 1
    {
      active, nextToken, nextStatement, runs, committed, answers, texts := None, 1, 1, [], [], [], map[];
    }

    /** Serves a request. */
    method Request(call: Call, ghost client: ClientId) returns (ok: bool, value: nat)
      requires Valid()
      modifies this
      ensures Valid() && nextToken >= old(nextToken) && Serves(old(Now()), Now(), call, client, ok, value)
      ensures call.Begin? && ok ==> old(nextToken) <= value < nextToken
    {
      ok, value := Serve(call, client);
      answers := answers + [Answer(call, ok, value)];
      assert old(answers) == answers[..|answers| - 1];
    }

    method Serve(call: Call, ghost client: ClientId) returns (ok: bool, value: nat)
      requires Valid()
      modifies this
      ensures Valid() && nextToken >= old(nextToken) && answers == old(answers)
      ensures Serves(old(Now()), Now().(answers := answers + [Answer(call, ok, value)]), call, client, ok, value)
      ensures call.Begin? && ok ==> old(nextToken) <= value < nextToken
    {
      var works: bool := *;
      value := 0;
      match call
      case Execute(target, token) =>
        if token != active {
          return false, value;
        }
        runs := runs + [Run(client, target, token, active)];
        ok := works;
      case Prepare(sql) =>
        ok := works && active.None?;
        if ok {
          value, nextStatement := nextStatement, nextStatement + 1;
          texts := texts[value := sql];
        }
      case ClosePrepared(_) | Check =>
        ok := works && active.None?;
      case Begin =>
        ok := works && active.None?;
        if ok {
          value, nextToken := nextToken, nextToken + 1;
          active := Some(value);
        }
      case Commit(token) =>
        if active != Some(token) {
          return false, value;
        }
        // A commit that fails is rolled back, unless that fails too.
        var cleaned: bool := *;
        ok := works;
        if works {
          committed := committed + [token];
        }
        if works || cleaned {
          active := None;
        }
      case Rollback(token) =>
        ok := works && active == Some(token);
        if ok {
          active := None;
        }
    }
  }
}

/** How the host takes its turns: one request after another, and at once where none is ahead (host.ts). */
module HostQueues {
  datatype Kind = Init | Close | Engine

  datatype Request = Request(id: nat, kind: Kind)

  class HostQueue {
    /** The requests not yet answered; the first is being served or not. */
    var queued: seq<Request>
    var serving: bool
    var ready: bool
    ghost var arrived: seq<Request>
    /** The requests served and those answered, in the order they were. */
    ghost var served: seq<Request>
    ghost var answered: seq<Request>

    /** Nothing is overtaken: what was served, and then what waits, is what arrived, in its order; answers likewise. */
    ghost predicate Valid()
      reads this
    {
      && (serving ==> queued != [])
      && arrived == served + queued[if serving then 1 else 0..]
      && arrived == answered + queued
    }

    constructor ()
      ensures Valid() && arrived == [] && !ready
    {
      queued, serving, ready, arrived, served, answered := [], false, false, [], [], [];
    }

    /** Serves a request at once, if the engine is open and nothing is ahead, or puts it in the queue. */
    method Schedule(request: Request) returns (now: bool)
      requires Valid()
      modifies this
      ensures Valid() && arrived == old(arrived) + [request] && ready == old(ready)
      ensures now <==> old(queued) == [] && ready && request.kind.Engine?
      ensures now ==> served == answered == arrived && queued == []
      ensures !now ==> queued == old(queued) + [request] && served == old(served) && answered == old(answered)
    {
      assert served + [] == served && answered + [] == answered;
      arrived := arrived + [request];
      if queued == [] && ready && request.kind.Engine? {
        served, answered := served + [request], answered + [request];
        return true;
      }
      queued := queued + [request];
      return false;
    }

    /** Serves a statement at once, where it overtakes nothing, or does nothing. */
    method StatementNow(request: Request) returns (now: bool)
      requires Valid() && request.kind.Engine?
      modifies this`arrived, this`served, this`answered
      ensures Valid() && (now <==> queued == [] && ready)
      ensures now ==> served == answered == arrived == old(arrived) + [request]
      ensures !now ==> arrived == old(arrived) && served == old(served) && answered == old(answered)
    {
      if queued != [] || !ready {
        return false;
      }
      assert served + [] == served && answered + [] == answered;
      arrived, served, answered := arrived + [request], served + [request], answered + [request];
      return true;
    }

    /** The first request's turn. An `init` may open the engine. */
    method Serve()
      requires Valid() && queued != [] && !serving
      modifies this`serving, this`ready, this`served
      ensures Valid() && serving && served == old(served) + [queued[0]]
      ensures ready != old(ready) ==> ready && queued[0].kind.Init?
    {
      var works: bool := *;
      served, serving := served + [queued[0]], true;
      ready := ready || (works && queued[0].kind.Init?);
    }

    /** Its answer: only then does another have its turn, or may one be served at once. */
    method Settle()
      requires Valid() && serving
      modifies this`queued, this`serving, this`answered
      ensures Valid() && !serving && queued == old(queued)[1..] && answered == old(answered) + [old(queued)[0]]
    {
      answered, queued, serving := answered + [queued[0]], queued[1..], false;
    }

    /** All that waits has its turn, each after the answer of the one before, until the last is being served. */
    method ServeLast()
      requires Valid() && queued != []
      modifies this`queued, this`serving, this`ready, this`served, this`answered
      ensures Valid() && serving && served == arrived && |queued| == 1
      ensures answered == arrived[..|arrived| - 1]
    {
      while |queued| > 1
        invariant Valid() && queued != []
        decreases |queued|
      {
        if !serving {
          Serve();
        }
        Settle();
      }
      if !serving {
        Serve();
      }
    }
  }
}

/** How clients' requests take turns at the engine, and their transactions exclude each other (database-broker.ts). */
module DatabaseBrokers {
  import opened EngineHosts
  import HostQueues

  const MAX_PENDING_REQUESTS := 256
  const MAX_QUEUED_BYTES := 8 * 1024 * 1024
  const MAX_CONNECTIONS := 128

  /** A transaction as its client names it: the owner's epoch, and the host's token. */
  datatype Named = Named(epoch: nat, token: Token)

  datatype Method =
    | Init | Close
    | PrepareSql(sql: nat)
    | CloseStatement(logical: nat)
    | BeginTransaction
    | CommitTransaction(named: Named)
    | RollbackTransaction(named: Named)
    | ExecuteSql(sql: nat, transaction: Option<Named>)
    | ExecutePrepared(logical: nat, transaction: Option<Named>)
    | ExecSql(sql: nat, transaction: Option<Named>)
    | Other

  datatype Request = Request(id: nat, call: Method)

  /** A statement of the owner's own tab, as the flat array it is posted as. */
  datatype StatementRequest = StatementRequest(id: nat, prepared: bool, target: nat, named: Option<Named>)

  /** The request that a flat statement stands for. */
  function Unflattened(statement: StatementRequest): Request {
    Request(statement.id,
            if statement.prepared then ExecutePrepared(statement.target, statement.named)
            else ExecuteSql(statement.target, statement.named))
  }

  /** `statementSql` is the text of a prepared statement that the owner may not know yet, and `statements` are those
      that a transaction may use. */
  datatype Message = Message(
    client: ClientId, compatible: bool, epoch: nat, request: Request, statementSql: Option<nat>,
    statements: seq<(nat, nat)>, bytes: nat)

  datatype Transaction = Transaction(client: ClientId, token: Token)

  datatype Receipt = Refused | Ignored | Served | Queued

  predicate IsStatement(call: Method) {
    call.ExecuteSql? || call.ExecutePrepared? || call.ExecSql?
  }

  function Bytes(queue: seq<Message>): nat {
    if queue == [] then 0 else queue[0].bytes + Bytes(queue[1..])
  }

  lemma {:induction false} BytesAppend(queue: seq<Message>, message: Message)
    ensures Bytes(queue + [message]) == Bytes(queue) + message.bytes
  {
    if queue == [] {
      assert queue + [message] == [message];
    } else {
      BytesAppend(queue[1..], message);
      assert (queue + [message])[1..] == queue[1..] + [message];
    }
  }

  lemma {:induction false} BytesRemove(queue: seq<Message>, i: nat)
    requires i < |queue|
    ensures Bytes(queue[..i] + queue[i + 1..]) == Bytes(queue) - queue[i].bytes
  {
    if i == 0 {
      assert queue[..0] + queue[1..] == queue[1..];
    } else {
      BytesRemove(queue[1..], i - 1);
      assert (queue[..i] + queue[i + 1..])[1..] == queue[1..][..i - 1] + queue[1..][i..];
    }
  }

  /** Whether a request may be served while a transaction is open: its own client's, or one that asks nothing of the
      engine. */
  predicate Eligible(transaction: Option<Transaction>, message: Message) {
    || transaction.None?
    || message.client == transaction.value.client
    || message.request.call.Close? || message.request.call.Init?
  }

  /** The first request that may be served. */
  function First(transaction: Option<Transaction>, queue: seq<Message>): (first: Option<nat>)
    ensures match first
            case Some(i) =>
              i < |queue| && Eligible(transaction, queue[i]) &&
              forall j :: 0 <= j < i ==> !Eligible(transaction, queue[j])
            case None => forall j :: 0 <= j < |queue| ==> !Eligible(transaction, queue[j])
  {
    if queue == [] then None
    else if Eligible(transaction, queue[0]) then Some(0)
    else match First(transaction, queue[1..])
      case Some(i) => Some(i + 1)
      case None =>
        assert forall j :: 0 < j < |queue| ==> queue[j] == queue[1..][j - 1];
        None
  }

  /** The transaction a request names, if it names one. */
  function NamedBy(call: Method): Option<Named> {
    match call
    case ExecuteSql(_, transaction) => transaction
    case ExecutePrepared(_, transaction) => transaction
    case ExecSql(_, transaction) => transaction
    case CommitTransaction(named) => Some(named)
    case RollbackTransaction(named) => Some(named)
    case _ => None
  }

  /** What is to be done for a statement: a call of the host, a text to prepare first, or nothing, where it names
      another transaction than its client's. */
  datatype Forward = Forwarded(call: Call) | Reprepare(sql: nat) | Lost | Unknown

  function Forwarding(epoch: nat, transaction: Option<Transaction>, prepared: map<nat, nat>, message: Message): Forward
    requires IsStatement(message.request.call)
  {
    var call := message.request.call;
    var named := NamedBy(call);
    if named.Some? && (transaction.None? || transaction.value.client != message.client ||
                       named.value != Named(epoch, transaction.value.token))
    then Lost
    else
      var token := if named.Some? then Some(transaction.value.token) else None;
      match call
      case ExecuteSql(sql, _) => Forwarded(Execute(Sql(sql), token))
      case ExecSql(sql, _) => Forwarded(Execute(Script(sql), token))
      case ExecutePrepared(logical, _) =>
        if logical in prepared then Forwarded(Execute(Prepared(prepared[logical]), token))
        else if message.statementSql.Some? then Reprepare(message.statementSql.value)
        else Unknown
      case _ => Lost
  }

  /** What a statement is forwarded as: under its own client's transaction, if it names one, the text it has, or the
      statement that its id names. It is lost exactly if it names a transaction that is not its client's and open. */
  lemma ForwardingMeans(epoch: nat, transaction: Option<Transaction>, prepared: map<nat, nat>, message: Message)
    requires IsStatement(message.request.call)
    ensures var call, named := message.request.call, NamedBy(message.request.call);
            var own := transaction.Some? && transaction.value.client == message.client;
            var result := Forwarding(epoch, transaction, prepared, message);
            && (result.Lost? <==> named.Some? && !(own && named.value == Named(epoch, transaction.value.token)))
            && (result.Forwarded? ==>
                  && result.call.Execute?
                  && result.call.token == (if named.Some? then Some(transaction.value.token) else None)
                  && match result.call.target
                     case Sql(sql) => call.ExecuteSql? && call.sql == sql
                     case Script(sql) => call.ExecSql? && call.sql == sql
                     case Prepared(statement) =>
                       call.ExecutePrepared? && call.logical in prepared && prepared[call.logical] == statement)
            && (result.Reprepare? ==>
                  call.ExecutePrepared? && call.logical !in prepared && message.statementSql == Some(result.sql))
            && (result.Unknown? ==> call.ExecutePrepared? && call.logical !in prepared && message.statementSql == None)
  {
  }

  /** The engine ran nothing more, or one statement of one client. */
  predicate RanAtMostOne(was: seq<Run>, now: seq<Run>, client: ClientId) {
    now == was || (|now| == |was| + 1 && now[..|was|] == was && now[|was|].client == client)
  }

  /** The host was asked these calls, one after another, and nothing else. */
  ghost predicate Calls(was: seq<Answer>, now: seq<Answer>, calls: seq<Call>) {
    && |now| == |was| + |calls| && was == now[..|was|]
    && forall i :: 0 <= i < |calls| ==> now[|was| + i].call == calls[i]
  }

  /** The host was asked the first of these calls, and no more. */
  ghost predicate CallsSome(was: seq<Answer>, now: seq<Answer>, calls: seq<Call>) {
    exists n: nat :: n <= |calls| && Calls(was, now, calls[..n])
  }

  lemma CallsNone(was: seq<Answer>)
    ensures Calls(was, was, [])
  {
  }

  lemma CallsAppend(first: seq<Answer>, second: seq<Answer>, third: seq<Answer>, calls: seq<Call>, more: seq<Call>)
    requires Calls(first, second, calls) && Calls(second, third, more)
    ensures Calls(first, third, calls + more)
  {
    forall i | 0 <= i < |calls + more| ensures third[|first| + i].call == (calls + more)[i] {
      assert i < |calls| ==> third[|first| + i] == second[|first| + i];
      assert i >= |calls| ==> third[|first| + i] == third[|second| + (i - |calls|)];
    }
    assert first == third[..|second|][..|first|];
  }

  lemma CallsFirst(was: seq<Answer>, now: seq<Answer>, calls: seq<Call>, some: seq<Call>)
    requires Calls(was, now, some) && some <= calls
    ensures CallsSome(was, now, calls)
  {
    assert calls[..|some|] == some;
  }

  lemma CallsMore(was: seq<Answer>, now: seq<Answer>, calls: seq<Call>, more: seq<Call>)
    requires CallsSome(was, now, calls)
    ensures CallsSome(was, now, calls + more)
  {
    var n: nat :| n <= |calls| && Calls(was, now, calls[..n]);
    assert calls[..n] == (calls + more)[..n];
  }

  /** The host was asked these calls, and whether it served all of them is the answer. */
  ghost predicate Answered(was: seq<Answer>, now: seq<Answer>, calls: seq<Call>, ok: bool) {
    Calls(was, now, calls) && (ok <==> forall i :: |was| <= i < |now| ==> now[i].ok)
  }

  lemma AnsweredOne(was: seq<Answer>, now: seq<Answer>, calls: seq<Call>, ok: bool, value: nat)
    requires if calls == [] then now == was && ok else |calls| == 1 && now == was + [Answer(calls[0], ok, value)]
    ensures Answered(was, now, calls, ok)
  {
    assert calls != [] ==> now[|was|].ok == ok;
  }

  /** The texts of `statements` whose ids are not known. */
  function Missing(statements: seq<(nat, nat)>, known: set<nat>): seq<Call> {
    if statements == [] then []
    else if statements[0].0 in known then Missing(statements[1..], known)
    else [Prepare(statements[0].1)] + Missing(statements[1..], known + {statements[0].0})
  }

  /** A text was prepared and, where that went well, the statement that the host made of it was run. */
  ghost predicate Reprepared(was: Record, now: Record, sql: nat, client: ClientId, ok: bool) {
    exists between: Record, statement: nat ::
      if !ok && between == now then Serves(was, between, Prepare(sql), client, false, statement)
      else
        && Serves(was, between, Prepare(sql), client, true, statement)
        && exists token, value :: Serves(between, now, Execute(Prepared(statement), token), client, ok, value)
  }

  /** Whether a request is neither a statement nor to do with a transaction. */
  predicate IsPlain(call: Method) {
    call.Init? || call.PrepareSql? || call.CloseStatement? || call.Other?
  }

  /** What such a request asks of the host. */
  function Plain(prepared: map<nat, nat>, call: Method): seq<Call> {
    match call
    case PrepareSql(sql) => [Prepare(sql)]
    case CloseStatement(logical) => if logical in prepared then [ClosePrepared(prepared[logical])] else []
    case Other => [Check]
    case _ => []
  }

  /** What the host is asked to end a transaction: of a commit that fails, to roll it back too. */
  function Ending(call: Method, token: Token, ok: bool): seq<Call> {
    if !call.CommitTransaction? then [Rollback(token)]
    else if ok then [Commit(token)] else [Commit(token), Rollback(token)]
  }

  /** What serving a request asks of the host, and whether it was served: `open` is the transaction that was open, and
      `prepared` are the statements its client knew. */
  ghost predicate Handled(was: Record, now: Record, epoch: nat, open: Option<Transaction>, prepared: map<nat, nat>,
                          message: Message, ok: bool) {
    var client, call := message.client, message.request.call;
    var mine := open.Some? && open.value.client == client;
    match call
    case ExecuteSql(_, _) | ExecutePrepared(_, _) | ExecSql(_, _) =>
      (match Forwarding(epoch, open, prepared, message)
       case Forwarded(forward) => exists value :: Serves(was, now, forward, client, ok, value)
       case Reprepare(sql) => Reprepared(was, now, sql, client, ok)
       case Lost | Unknown => !ok && now == was)
    case Close =>
      if mine then Answered(was.answers, now.answers, [Rollback(open.value.token)], ok) else ok && now == was
    case BeginTransaction =>
      var calls := Missing(message.statements, prepared.Keys) + [Begin];
      if ok then Calls(was.answers, now.answers, calls) && was.active == None && now.active.Some?
      else CallsSome(was.answers, now.answers, calls) && now.active == was.active
    case CommitTransaction(named) =>
      if mine && named == Named(epoch, open.value.token) then Ended(was, now, call, open.value.token, ok)
      else !ok && now == was
    case RollbackTransaction(named) =>
      if mine && named == Named(epoch, open.value.token) then Ended(was, now, call, open.value.token, ok)
      else !ok && now == was
    case _ => Answered(was.answers, now.answers, Plain(prepared, call), ok)
  }

  /** A transaction was ended at the host, or the host refused to. */
  ghost predicate Ended(was: Record, now: Record, call: Method, token: Token, ok: bool) {
    && Calls(was.answers, now.answers, Ending(call, token, ok)) && ok == now.answers[|was.answers|].ok
    && (ok ==> was.active == Some(token) && now.active == None)
  }

  /** What the broker asks of the host: never to open it or to close it. */
  function Asked(id: nat): HostQueues.Request {
    HostQueues.Request(id, HostQueues.Engine)
  }

  predicate Owned(owners: map<Token, ClientId>, token: Token, client: ClientId) {
    token in owners && owners[token] == client
  }

  class Broker {
    const epoch: nat
    const host: Host
    /** The host's own queue, in which what the broker asks of it waits its turn. */
    const turns: HostQueues.HostQueue
    var queue: seq<Message>
    var queuedBytes: nat
    var busy: bool
    var transaction: Option<Transaction>
    /** Each client's prepared statements, by the ids it knows them by. */
    var connections: map<ClientId, map<nat, nat>>
    var abandoned: set<ClientId>
    /** Who began each transaction. */
    ghost var owners: map<Token, ClientId>

    /** The bytes counted are the queue's, and both are bounded. */
    ghost predicate Counted()
      reads this
    {
      && queuedBytes == Bytes(queue) && queuedBytes <= MAX_QUEUED_BYTES + 8192 && |queue| <= MAX_PENDING_REQUESTS + 8
    }

    /** Every statement that ran under a token was its owner's, and so is the transaction that is open. */
    ghost predicate Owns()
      reads this, host
    {
      && (host.active.Some? ==> host.active.value in owners)
      && (forall token :: token in owners ==> token < host.nextToken)
      && (forall i :: 0 <= i < |host.runs| && host.runs[i].token.Some? ==>
            Owned(owners, host.runs[i].token.value, host.runs[i].client))
    }

    /** The statements that clients know are the host's. */
    ghost predicate Prepares()
      reads this, host
    {
      forall client, logical :: client in connections && logical in connections[client] ==>
        connections[client][logical] in host.texts
    }

    ghost predicate Valid()
      reads this, host, turns
    {
      && host.Valid() && turns.Valid() && Counted() && Owns() && Prepares()
      && (transaction.Some? ==>
            transaction.value.client in connections && Owned(owners, transaction.value.token, transaction.value.client))
    }

    constructor (epoch: nat)
      ensures Valid() && fresh(host) && fresh(turns) && queue == [] && host.runs == [] && this.epoch == epoch
    {
      this.epoch, queue, queuedBytes, busy, transaction := epoch, [], 0, false, None;
      connections, abandoned, owners := map[], {}, map[];
      host := new Host();
      turns := new HostQueues.HostQueue();
    }

    /** Room is kept for what ends the open transaction, and for a close, even when the queue is full. */
    predicate Priority(message: Message)
      reads this
    {
      || message.request.call.Close?
      || (transaction.Some? && transaction.value.client == message.client &&
          (message.request.call.CommitTransaction? || message.request.call.RollbackTransaction?))
    }

    predicate Room(message: Message)
      reads this
    {
      var priority := Priority(message);
      && |queue| < MAX_PENDING_REQUESTS + (if priority then 8 else 0)
      && queuedBytes + message.bytes <= MAX_QUEUED_BYTES + (if priority then 8192 else 0)
    }

    /** Whether there is room for a request, and it is for this owner. */
    predicate Admitted(message: Message)
      reads this
    {
      && (message.client in connections || |connections| < MAX_CONNECTIONS)
      && message.compatible && message.epoch == epoch && message.bytes <= MAX_QUEUED_BYTES && Room(message)
    }

    /** Takes a request: refuses it, serves it at once, or queues it. */
    method Receive(message: Message) returns (receipt: Receipt)
      requires Valid()
      modifies this, host, turns
      ensures Valid() && Arrived(old(queue), old(connections), old(transaction), old(owners)) && busy == old(busy)
      ensures receipt.Queued? || receipt.Served? <==> old(Admitted(message))
      ensures queue == if receipt.Queued? then old(queue) + [message] else old(queue)
      ensures receipt.Served? <==>
                old(Admitted(message)) && old(Immediate(message)).Some? && old(turns.queued) == [] && old(turns.ready)
      ensures receipt.Served? ==>
                && old(queue) == [] && !busy && turns.queued == [] && turns.answered == turns.served == turns.arrived
                && turns.arrived == old(turns.arrived) + [Asked(message.request.id)]
      ensures if receipt.Served? && old(Immediate(message)).Some?
              then exists ok, value ::
                Serves(old(host.Now()), host.Now(), old(Immediate(message)).value, message.client, ok, value)
              else host.Now() == old(host.Now())
    {
      hide Valid, Immediate, Ran;
      var connected := Connect(message.client);
      if !connected {
        return Refused;
      }
      if !message.compatible {
        Abandon(message.client);
        return Refused;
      }
      if message.epoch != epoch {
        return Ignored;
      }
      if message.bytes > MAX_QUEUED_BYTES || !Room(message) {
        return Refused;
      }
      receipt := Take(message);
    }

    /** Serves an admitted request at once, where it overtakes nothing of the broker's or of the host's, or queues it.
        */
    method Take(message: Message) returns (receipt: Receipt)
      requires Valid() && Room(message)
      modifies this`queue, this`queuedBytes, host, turns
      ensures Valid() && queue == if receipt.Queued? then old(queue) + [message] else old(queue)
      ensures receipt.Queued? || receipt.Served?
      ensures receipt.Served? <==> old(Immediate(message)).Some? && old(turns.queued) == [] && old(turns.ready)
      ensures receipt.Served? ==>
                && old(queue) == [] && !busy && turns.queued == [] && turns.answered == turns.served == turns.arrived
                && turns.arrived == old(turns.arrived) + [Asked(message.request.id)]
      ensures if receipt.Served? && old(Immediate(message)).Some?
              then exists ok, value ::
                Serves(old(host.Now()), host.Now(), old(Immediate(message)).value, message.client, ok, value)
              else host.Now() == old(host.Now())
    {
      var served := ServeNow(message);
      if served {
        return Served;
      }
      Push(message);
      return Queued;
    }

    /** Makes a client's connection, if it has none. */
    method Connect(client: ClientId) returns (ok: bool)
      requires Valid()
      modifies this`connections
      ensures Valid() && (ok <==> client in old(connections) || |old(connections)| < MAX_CONNECTIONS)
      ensures connections ==
              if ok && client !in old(connections) then old(connections)[client := map[]] else old(connections)
      ensures forall message: Message :: Immediate(message) == old(Immediate(message))
    {
      ok := true;
      if client !in connections {
        if |connections| >= MAX_CONNECTIONS {
          return false;
        }
        connections := connections[client := map[]];
      }
    }

    /** A client is to be forgotten at the pump's next turn. */
    method Abandon(client: ClientId)
      requires Valid()
      modifies this`abandoned
      ensures Valid() && abandoned == old(abandoned) + {client}
    {
      abandoned := abandoned + {client};
    }

    method Push(message: Message)
      requires Valid() && Room(message)
      modifies this`queue, this`queuedBytes
      ensures Valid() && queue == old(queue) + [message]
    {
      BytesAppend(queue, message);
      queue := queue + [message];
      queuedBytes := queuedBytes + message.bytes;
    }

    /** The host's call for a statement that can be served at once, when nothing waits ahead of it. */
    function Immediate(message: Message): Option<Call>
      reads this
    {
      var call := message.request.call;
      if busy || queue != [] || abandoned != {} || !IsStatement(call) ||
         (transaction.Some? && transaction.value.client != message.client)
      then None
      else
        var named := NamedBy(call);
        if named.Some? && (transaction.None? || named.value != Named(epoch, transaction.value.token)) then None
        else
          var token := if named.Some? then Some(transaction.value.token) else None;
          match call
          case ExecuteSql(sql, _) => Some(Execute(Sql(sql), token))
          case ExecSql(sql, _) => Some(Execute(Script(sql), token))
          case ExecutePrepared(logical, _) =>
            if message.client in connections && logical in connections[message.client]
            then Some(Execute(Prepared(connections[message.client][logical]), token)) else None
          case _ => None
    }

    /** The same, read from the flat array that a statement of the owner's own tab is posted as. */
    function ImmediateStatement(local: ClientId, request: StatementRequest): Option<Call>
      reads this
    {
      if busy || queue != [] || abandoned != {} then None
      else if transaction.Some? && transaction.value.client != local then None
      else if request.named.Some? &&
              (transaction.None? || request.named.value != Named(epoch, transaction.value.token)) then None
      else
        var token := if transaction.Some? && request.named.Some? then Some(transaction.value.token) else None;
        if !request.prepared then Some(Execute(Sql(request.target), token))
        else if local in connections && request.target in connections[local]
        then Some(Execute(Prepared(connections[local][request.target]), token))
        else None
    }

    /** A flat statement is served at once exactly when the request it stands for would be, by the same call. */
    lemma FlatAsRequest(request: StatementRequest, message: Message)
      requires message.request == Unflattened(request)
      ensures ImmediateStatement(message.client, request) == Immediate(message)
    {
      if request.prepared {
        assert message.request.call == ExecutePrepared(request.target, request.named);
      } else {
        assert message.request.call == ExecuteSql(request.target, request.named);
      }
    }

    /** What serving at once calls, queueing would: with the request alone in the queue it is the next, and is forwarded
        by the same call. Nothing that waits is overtaken. */
    lemma ServedAsQueued(message: Message)
      requires Immediate(message).Some?
      ensures queue == [] && !busy && abandoned == {}
      ensures First(transaction, [message]) == Some(0)
      ensures message.client in connections || !message.request.call.ExecutePrepared?
      ensures var prepared := if message.client in connections then connections[message.client] else map[];
              Forwarding(epoch, transaction, prepared, message) == Forwarded(Immediate(message).value)
    {
    }

    /** Serves a statement at once, exactly if it can be and the host too has nothing ahead of it: all that was asked of
        the host before has been served and answered. */
    method ServeNow(message: Message) returns (served: bool)
      requires Valid()
      modifies host, turns
      ensures Valid()
      ensures served <==> Immediate(message).Some? && old(turns.queued) == [] && old(turns.ready)
      ensures served ==> turns.queued == [] && turns.answered == turns.served == turns.arrived
      ensures served ==> turns.arrived == old(turns.arrived) + [Asked(message.request.id)]
      ensures !served ==> turns.arrived == old(turns.arrived) && turns.served == old(turns.served)
      ensures if served && Immediate(message).Some?
              then exists ok, value :: Serves(old(host.Now()), host.Now(), Immediate(message).value, message.client, ok,
                                              value)
              else host.Now() == old(host.Now())
    {
      var call := Immediate(message);
      if call.None? {
        return false;
      }
      served := turns.StatementNow(Asked(message.request.id));
      if served {
        assert call.value.Execute?;
        var ok, value := host.Request(call.value, message.client);
      }
    }

    /** What else is asked of the host, and answered, while the broker waits: an opening, a close or a schema's request.
        */
    method Others()
      requires Valid()
      modifies turns
      ensures Valid()
    {
      var n: int := *;
      for i := 0 to if n < 0 then 0 else n
        invariant Valid()
      {
        var other: HostQueues.Request := *;
        var now := turns.Schedule(other);
        if turns.serving {
          turns.Settle();
        } else if turns.queued != [] {
          turns.Serve();
        }
      }
    }

    /** While the pump waits for the host, other requests may arrive, but none of them reaches it. */
    method Await()
      requires Valid() && busy
      modifies this, host, turns
      ensures Valid() && busy && Arrived(old(queue), old(connections), old(transaction), old(owners))
      ensures host.Now() == old(host.Now())
    {
      Others();
      var n: int := *;
      for i := 0 to if n < 0 then 0 else n
        invariant Valid() && busy && Arrived(old(queue), old(connections), old(transaction), old(owners))
        invariant host.Now() == old(host.Now())
      {
        var message: Message := *;
        var receipt := Receive(message);
      }
      var gone: ClientId := *;
      Abandon(gone);
    }

    /** What the arrival of requests leaves as it was: all but the end of the queue, and connections newly made. */
    ghost predicate Arrived(
      was: seq<Message>, known: map<ClientId, map<nat, nat>>, open: Option<Transaction>, began: map<Token, ClientId>)
      reads this
    {
      && transaction == open && owners == began && was <= queue
      && forall client :: client in known ==> client in connections && connections[client] == known[client]
    }

    /** A request of the host has its turn there after all that was asked before it, and before all that is after. */
    method Turn(call: Call, ghost client: ClientId) returns (ok: bool, value: nat)
      requires Valid()
      requires call.Execute? && call.token.Some? ==> Owned(owners, call.token.value, client)
      modifies host, turns
      ensures host.Valid() && turns.Valid() && host.nextToken >= old(host.nextToken)
      ensures turns.answered == turns.served == turns.arrived == old(turns.arrived) + [Asked(0)]
      ensures Serves(old(host.Now()), host.Now(), call, client, ok, value)
      ensures call.Begin? && ok ==> old(host.nextToken) <= value < host.nextToken
    {
      var now := turns.Schedule(Asked(0));
      if !now {
        turns.ServeLast();
      }
      ok, value := host.Request(call, client);
      if !now {
        turns.Settle();
      }
    }

    /** A request of the host, on a client's behalf: a statement only under a token that is its client's. */
    method Request(call: Call, ghost client: ClientId) returns (ok: bool, value: nat)
      requires Valid() && busy && !call.Begin?
      requires call.Execute? && call.token.Some? ==> Owned(owners, call.token.value, client)
      modifies this, host, turns
      ensures Valid() && busy && Arrived(old(queue), old(connections), old(transaction), old(owners))
      ensures Serves(old(host.Now()), host.Now(), call, client, ok, value)
    {
      Await();
      ok, value := Turn(call, client);
      Await();
    }

    /** Prepares a text for a client that knows it by an id, which then names the statement the host made of it. */
    method PrepareFor(client: ClientId, logical: nat, sql: nat) returns (ok: bool, statement: nat)
      requires Valid() && busy && client in connections
      modifies this, host, turns
      ensures Valid() && busy && transaction == old(transaction) && owners == old(owners) && old(queue) <= queue
      ensures host.runs == old(host.runs) && host.committed == old(host.committed) && host.active == old(host.active)
      ensures Serves(old(host.Now()), host.Now(), Prepare(sql), client, ok, statement)
      ensures ok ==> Knows(client, logical) && connections[client][logical] == statement
      ensures KnowsBut(old(connections), client, {logical})
    {
      ok, statement := Request(Prepare(sql), client);
      if ok {
        var prepared: map<nat, nat> := connections[client][logical := statement];
        connections := connections[client := prepared];
      }
    }

    predicate Knows(client: ClientId, logical: nat)
      reads this
    {
      client in connections && logical in connections[client]
    }

    /** Every client knows the statements it knew, but for some of one client's. */
    ghost predicate KnowsBut(known: map<ClientId, map<nat, nat>>, client: ClientId, but: set<nat>)
      reads this
    {
      && known.Keys <= connections.Keys
      && (forall other :: other in known && other != client ==> connections[other] == known[other])
      && (client in known ==>
            (forall logical :: logical in known[client] && logical !in but ==>
               logical in connections[client] && connections[client][logical] == known[client][logical]) &&
            forall logical :: logical in connections[client] && logical !in but ==> logical in known[client])
    }

    /** Serves a request that is plain: the host is asked exactly what it asks, and the answer is the host's. */
    method HandlePlain(message: Message) returns (ok: bool)
      requires Valid() && busy && message.client in connections && IsPlain(message.request.call)
      modifies this, host, turns
      ensures Valid() && busy && old(queue) <= queue && transaction == old(transaction)
      ensures host.runs == old(host.runs) && host.committed == old(host.committed)
      ensures Answered(old(host.answers), host.answers, Plain(old(connections)[message.client], message.request.call),
                       ok)
    {
      hide Counted, Owns, Prepares, Host.Valid, HostQueues.HostQueue.Valid, Answered;
      var client := message.client;
      ghost var was, calls := host.answers, Plain(connections[message.client], message.request.call);
      var value: nat := 0;
      match message.request.call {
        case Init => ok := true;
        case PrepareSql(sql) => ok, value := PrepareFor(client, message.request.id, sql);
        case CloseStatement(logical) => ok, value := CloseStatementOf(client, logical);
        case Other => ok, value := Request(Check, client);
      }
      AnsweredOne(was, host.answers, calls, ok, value);
    }

    /** Serves a request whose turn has come. It runs at most one statement, and only its own client's. */
    method Handle(message: Message) returns (ok: bool)
      requires Valid() && busy && message.client in connections
      modifies this, host, turns
      ensures Valid() && busy && old(queue) <= queue && RanAtMostOne(old(host.runs), host.runs, message.client)
      ensures !IsStatement(message.request.call) ==> host.runs == old(host.runs)
      ensures Handled(old(host.Now()), host.Now(), epoch, old(transaction), old(connections)[message.client], message,
                      ok)
      ensures host.committed == old(host.committed) +
                if ok && message.request.call.CommitTransaction? then [message.request.call.named.token] else []
      ensures transaction == old(transaction) || transaction == None ||
              (message.request.call.BeginTransaction? && transaction.value.client == message.client)
    {
      hide Counted, Owns, Prepares, Calls, CallsSome, Serves, Answered, Plain, Host.Valid, HostQueues.HostQueue.Valid,
           Missing, Reprepared, Ended, Forwarding, NamedBy;
      var value: nat;
      ghost var was, open := host.Now(), transaction;
      match message.request.call
      case Close =>
        ok, value := HandleClose(message);
        if open.Some? && open.value.client == message.client {
          AnsweredOne(was.answers, host.answers, [Rollback(open.value.token)], ok, value);
        }
      case BeginTransaction => ok := HandleBegin(message);
      case CommitTransaction(_) | RollbackTransaction(_) => ok := HandleEnd(message);
      case ExecuteSql(_, _) | ExecutePrepared(_, _) | ExecSql(_, _) => ok, value := HandleStatement(message);
      case Init | PrepareSql(_) | CloseStatement(_) | Other => ok := HandlePlain(message);
    }

    /** A client's id names no statement any more, and the host closes the one it named. */
    method CloseStatementOf(client: ClientId, logical: nat) returns (ok: bool, value: nat)
      requires Valid() && busy && client in connections
      modifies this, host, turns
      ensures Valid() && busy && transaction == old(transaction) && old(queue) <= queue
      ensures !Knows(client, logical) && KnowsBut(old(connections), client, {logical})
      ensures host.runs == old(host.runs) && host.committed == old(host.committed)
      ensures if old(Knows(client, logical))
              then Serves(old(host.Now()), host.Now(), ClosePrepared(old(connections)[client][logical]), client, ok,
                          value)
              else ok && host.Now() == old(host.Now())
    {
      ok, value := true, 0;
      if logical in connections[client] {
        var statement := connections[client][logical];
        connections := connections[client := connections[client] - {logical}];
        ok, value := Request(ClosePrepared(statement), client);
      }
    }

    /** Whether a client's transaction is open. */
    predicate Has(client: ClientId)
      reads this
    {
      transaction.Some? && transaction.value.client == client
    }

    /** A client that leaves has its transaction rolled back, at the host too. */
    method HandleClose(message: Message) returns (ok: bool, value: nat)
      requires Valid() && busy && message.client in connections
      modifies this, host, turns
      ensures Valid() && busy && old(queue) <= queue
      ensures host.runs == old(host.runs) && host.committed == old(host.committed)
      ensures if old(Has(message.client))
              then host.answers == old(host.answers) + [Answer(Rollback(old(transaction).value.token), ok, value)]
              else ok && host.Now() == old(host.Now())
      ensures ok && old(Has(message.client)) ==> host.active == None
      ensures transaction == if ok && old(Has(message.client)) then None else old(transaction)
    {
      hide Counted, Owns, Prepares, Host.Valid, HostQueues.HostQueue.Valid;
      Abandon(message.client);
      ok, value := true, 0;
      if transaction.Some? && transaction.value.client == message.client {
        ok, value := Request(Rollback(transaction.value.token), message.client);
        if ok {
          End();
        }
      }
    }

    /** No transaction is open any more, as far as the broker knows. */
    method End()
      requires Valid()
      modifies this`transaction
      ensures Valid() && transaction == None
    {
      transaction := None;
    }

    /** Ends the transaction that the request names, if it is its client's and open: at the host, which is asked for it
        and, where a commit fails, to roll it back. */
    method HandleEnd(message: Message) returns (ok: bool)
      requires Valid() && busy && message.client in connections
      requires message.request.call.CommitTransaction? || message.request.call.RollbackTransaction?
      modifies this, host, turns
      ensures Valid() && busy && old(queue) <= queue && host.runs == old(host.runs)
      ensures var mine := old(Has(message.client)) &&
                          message.request.call.named == Named(epoch, old(transaction).value.token);
              && transaction ==
                 (if mine && (ok || message.request.call.CommitTransaction?) then None else old(transaction))
              && if mine then Ended(old(host.Now()), host.Now(), message.request.call, old(transaction).value.token, ok)
                 else !ok && host.Now() == old(host.Now())
      ensures host.committed == old(host.committed) +
                if ok && message.request.call.CommitTransaction? then [message.request.call.named.token] else []
    {
      hide Counted, Owns, Prepares, Host.Valid, HostQueues.HostQueue.Valid;
      var client, named := message.client, message.request.call.named;
      if transaction.None? || transaction.value.client != client || named != Named(epoch, transaction.value.token) {
        return false;
      }
      var value: nat;
      if message.request.call.CommitTransaction? {
        ok, value := Request(Commit(named.token), client);
        if !ok {
          // The host may already have discarded the transaction.
          var rolled: bool;
          rolled, value := Request(Rollback(named.token), client);
        }
        End();
      } else {
        ok, value := Request(Rollback(named.token), client);
        if ok {
          End();
        }
      }
    }

    /** Restores the client's prepared statements, which the host forbids in a transaction, and begins one. */
    method HandleBegin(message: Message) returns (ok: bool)
      requires Valid() && busy && message.client in connections
      modifies this, host, turns
      ensures Valid() && busy && old(queue) <= queue && host.runs == old(host.runs) &&
              host.committed == old(host.committed)
      ensures if ok then old(host.active) == None && Has(message.client) &&
                         host.active == Some(transaction.value.token)
              else transaction == old(transaction) && host.active == old(host.active)
      ensures var missing := old(Missing(message.statements, connections[message.client].Keys));
              && (ok ==> Calls(old(host.answers), host.answers, missing + [Begin]))
              && (!ok ==> CallsSome(old(host.answers), host.answers, missing + [Begin]))
    {
      hide Valid, Calls, CallsSome, Missing, Serves;
      ghost var was, missing := host.answers, Missing(message.statements, connections[message.client].Keys);
      ok := Restore(message);
      if !ok {
        CallsMore(was, host.answers, missing, [Begin]);
        return;
      }
      ghost var restored := host.answers;
      Await();
      var token: nat;
      ok, token := BeginFor(message.client);
      CallsAppend(was, restored, host.answers, missing, [Begin]);
      CallsFirst(was, host.answers, missing + [Begin], missing + [Begin]);
      if ok {
        Began(message.client, token);
        Await();
      }
    }

    /** A transaction that the host began is the client's. */
    method Began(client: ClientId, token: Token)
      requires Valid() && client in connections && Owned(owners, token, client)
      modifies this`transaction
      ensures Valid() && transaction == Some(Transaction(client, token))
    {
      transaction := Some(Transaction(client, token));
    }

    /** Prepares again those of the client's statements that this owner does not know. */
    method Restore(message: Message) returns (ok: bool)
      requires Valid() && busy && message.client in connections
      modifies this, host, turns
      ensures Valid() && busy && old(queue) <= queue && message.client in connections
      ensures host.runs == old(host.runs) && host.committed == old(host.committed)
      ensures transaction == old(transaction) && host.active == old(host.active)
      ensures var missing := old(Missing(message.statements, connections[message.client].Keys));
              if ok then Calls(old(host.answers), host.answers, missing)
              else CallsSome(old(host.answers), host.answers, missing)
    {
      hide Valid, Calls, CallsSome;
      ok := true;
      ghost var was, missing := host.answers, Missing(message.statements, connections[message.client].Keys);
      ghost var done: seq<Call> := [];
      CallsNone(was);
      for i := 0 to |message.statements|
        invariant Valid() && busy && old(queue) <= queue && message.client in connections && ok
        invariant host.runs == old(host.runs) && host.committed == old(host.committed)
        invariant transaction == old(transaction) && host.active == old(host.active)
        invariant Calls(was, host.answers, done)
        invariant missing == done + Missing(message.statements[i..], connections[message.client].Keys)
      {
        var (logical, sql) := message.statements[i];
        assert message.statements[i..][0] == message.statements[i];
        assert message.statements[i..][1..] == message.statements[i + 1..];
        ghost var before, known := host.answers, connections[message.client].Keys;
        assert logical in known ==> known + {logical} == known;
        ghost var calls;
        ok, calls := RestoreOne(message.client, logical, sql);
        CallsAppend(was, before, host.answers, done, calls);
        done := done + calls;
        if !ok {
          CallsFirst(was, host.answers, missing, done);
          return;
        }
        assert missing == done + Missing(message.statements[i + 1..], known + {logical});
      }
      assert message.statements[|message.statements|..] == [] && missing == done;
    }

    method RestoreOne(client: ClientId, logical: nat, sql: nat) returns (ok: bool, ghost calls: seq<Call>)
      requires Valid() && busy && client in connections
      modifies this, host, turns
      ensures Valid() && busy && old(queue) <= queue && client in connections
      ensures host.runs == old(host.runs) && host.committed == old(host.committed)
      ensures transaction == old(transaction) && host.active == old(host.active)
      ensures calls == (if old(Knows(client, logical)) then [] else [Prepare(sql)])
      ensures Calls(old(host.answers), host.answers, calls) && (!ok ==> calls != [])
      ensures ok ==> connections[client].Keys == old(connections)[client].Keys + {logical}
    {
      hide Counted, Owns, Prepares, Host.Valid, HostQueues.HostQueue.Valid;
      ok, calls := true, [];
      if logical !in connections[client] {
        var statement;
        ok, statement := PrepareFor(client, logical, sql);
        calls := [Prepare(sql)];
      }
    }

    /** Begins a transaction of the host's, which is then the client's. */
    method BeginFor(client: ClientId) returns (ok: bool, token: Token)
      requires Valid() && busy
      modifies this`owners, host, turns
      ensures Valid() && Calls(old(host.answers), host.answers, [Begin])
      ensures host.runs == old(host.runs) && host.committed == old(host.committed)
      ensures if ok then old(host.active) == None && host.active == Some(token) && Owned(owners, token, client)
              else host.active == old(host.active)
    {
      ok, token := Turn(Begin, client);
      if ok {
        ghost var began := owners;
        owners := owners[token := client];
        assert forall i :: 0 <= i < |host.runs| && host.runs[i].token.Some? ==>
                 Owned(began, host.runs[i].token.value, host.runs[i].client);
        if transaction.Some? {
          assert Owned(began, transaction.value.token, transaction.value.client);
        }
      }
    }

    /** A statement is forwarded under its transaction's token, or fails if it names another. */
    method HandleStatement(message: Message) returns (ok: bool, value: nat)
      requires Valid() && busy && message.client in connections && IsStatement(message.request.call)
      modifies this, host, turns
      ensures Valid() && busy && old(queue) <= queue && RanAtMostOne(old(host.runs), host.runs, message.client)
      ensures transaction == old(transaction) && host.committed == old(host.committed)
      ensures ok ==> |host.runs| == |old(host.runs)| + 1
      ensures |host.runs| == |old(host.runs)| + 1 ==>
                host.runs[|old(host.runs)|].token ==
                if NamedBy(message.request.call).Some? && old(transaction).Some? then Some(old(transaction).value.token)
                else None
      ensures match old(Forwarding(epoch, transaction, connections[message.client], message))
              case Forwarded(call) => Serves(old(host.Now()), host.Now(), call, message.client, ok, value)
              case Reprepare(sql) => Reprepared(old(host.Now()), host.Now(), sql, message.client, ok)
              case Lost | Unknown => !ok && host.Now() == old(host.Now())
    {
      hide Counted, Owns, Prepares, Host.Valid, HostQueues.HostQueue.Valid, Reprepared;
      var client := message.client;
      value := 0;
      var forward := Forwarding(epoch, transaction, connections[client], message);
      match forward
      case Forwarded(call) => ok, value := Request(call, client);
      case Reprepare(sql) => ok := HandleReprepare(message, sql);
      case Lost | Unknown => ok := false;
    }

    /** Prepares again a statement that this owner does not know, and runs it. */
    method HandleReprepare(message: Message, sql: nat) returns (ok: bool)
      requires Valid() && busy && message.client in connections && message.request.call.ExecutePrepared?
      requires NamedBy(message.request.call).Some? ==> transaction.Some? && transaction.value.client == message.client
      modifies this, host, turns
      ensures Valid() && busy && old(queue) <= queue && RanAtMostOne(old(host.runs), host.runs, message.client)
      ensures transaction == old(transaction) && host.committed == old(host.committed)
      ensures Reprepared(old(host.Now()), host.Now(), sql, message.client, ok)
      ensures ok ==> |host.runs| == |old(host.runs)| + 1
      ensures |host.runs| == |old(host.runs)| + 1 ==>
                host.runs[|old(host.runs)|].token ==
                if NamedBy(message.request.call).Some? && old(transaction).Some? then Some(old(transaction).value.token)
                else None
    {
      hide Counted, Owns, Prepares, Host.Valid, HostQueues.HostQueue.Valid;
      var client, logical := message.client, message.request.call.logical;
      var token := if NamedBy(message.request.call).Some? then Some(transaction.value.token) else None;
      var value;
      ok, value := PrepareFor(client, logical, sql);
      if ok {
        ok, value := Request(Execute(Prepared(connections[client][logical]), token), client);
      }
    }

    /** Forgets a client that is gone: its transaction is rolled back, and its statements closed, but not while
        another's transaction is open. A rollback that fails leaves the engine beyond use, and is told. */
    method Forget(client: ClientId) returns (ok: bool)
      requires Valid() && busy && (transaction.None? || transaction.value.client == client)
      modifies this, host, turns
      ensures Valid() && busy && transaction.None? && old(queue) <= queue
      ensures host.runs == old(host.runs) && host.committed == old(host.committed)
      ensures ok ==> client !in connections
      ensures client !in old(connections) ==> ok && host.Now() == old(host.Now())
      ensures old(Has(client)) ==>
                && |host.answers| > |old(host.answers)| && old(host.answers) <= host.answers
                && host.answers[|old(host.answers)|].call == Rollback(old(transaction).value.token)
                && ok == host.answers[|old(host.answers)|].ok
      ensures ok && old(Has(client)) ==> host.active == None
      ensures ok && client in old(connections) ==>
                forall statement :: statement in old(connections)[client].Values ==>
                  exists i :: |old(host.answers)| <= i < |host.answers| &&
                              host.answers[i].call == ClosePrepared(statement)
    {
      if client !in connections {
        return true;
      }
      ok := true;
      if transaction.Some? {
        var value: nat;
        ok, value := Request(Rollback(transaction.value.token), client);
        transaction := None;
        if !ok {
          return;
        }
      }
      CloseStatements(client, connections[client].Values);
      connections := connections - {client};
      abandoned := abandoned - {client};
    }

    method CloseStatements(client: ClientId, all: set<nat>)
      requires Valid() && busy && transaction.None?
      modifies this, host, turns
      ensures Valid() && busy && transaction.None? && old(queue) <= queue
      ensures host.runs == old(host.runs) && host.committed == old(host.committed) && host.active == old(host.active)
      ensures old(host.answers) <= host.answers
      ensures forall statement :: statement in all ==>
                exists i :: |old(host.answers)| <= i < |host.answers| &&
                            host.answers[i].call == ClosePrepared(statement)
      ensures forall i :: |old(host.answers)| <= i < |host.answers| ==>
                host.answers[i].call.ClosePrepared? && host.answers[i].call.statement in all
    {
      var statements := all;
      while statements != {}
        invariant Valid() && busy && transaction.None? && old(queue) <= queue && statements <= all
        invariant host.runs == old(host.runs) && host.committed == old(host.committed)
        invariant host.active == old(host.active) && old(host.answers) <= host.answers
        invariant forall statement :: statement in all && statement !in statements ==>
                    exists i :: |old(host.answers)| <= i < |host.answers| &&
                                host.answers[i].call == ClosePrepared(statement)
        invariant forall i :: |old(host.answers)| <= i < |host.answers| ==>
                    host.answers[i].call.ClosePrepared? && host.answers[i].call.statement in all
        decreases |statements|
      {
        var statement :| statement in statements;
        ghost var answers := host.answers;
        var _, _ := Request(ClosePrepared(statement), client);
        assert answers <= host.answers && host.answers[|answers|].call == ClosePrepared(statement);
        forall other | other in all && other !in statements - {statement}
          ensures exists i :: |old(host.answers)| <= i < |host.answers| && host.answers[i].call == ClosePrepared(other)
        {
          if other != statement {
            var i :| |old(host.answers)| <= i < |answers| && answers[i].call == ClosePrepared(other);
            assert host.answers[i] == answers[i];
          }
        }
        statements := statements - {statement};
      }
    }

    /** Takes the next request from the queue: the first that may be served. */
    method Next() returns (next: Option<Message>)
      requires Valid() && busy
      modifies this`queue, this`queuedBytes
      ensures Valid()
      ensures match old(First(transaction, queue))
              case None => next == None && queue == old(queue)
              case Some(i) => next == Some(old(queue)[i]) && queue == old(queue)[..i] + old(queue)[i + 1..]
    {
      var first := First(transaction, queue);
      if first.None? {
        return None;
      }
      var message := queue[first.value];
      BytesRemove(queue, first.value);
      queuedBytes := queuedBytes - message.bytes;
      queue := queue[..first.value] + queue[first.value + 1..];
      return Some(message);
    }

    /** One turn of the pump: forgets the clients that are gone, and serves the next request, if its client is not gone.
        `ready`, `open`, `known` and `was` are the queue, the transaction, the connections and the host when its turn
        comes. */
    method PumpOne()
      returns (served: Option<Message>, ok: bool, ghost ready: seq<Message>, ghost open: Option<Transaction>,
               ghost known: map<ClientId, map<nat, nat>>, ghost was: Record)
      requires Valid() && busy
      modifies this, host, turns
      ensures Valid() && busy && old(queue) <= ready
      ensures open == old(transaction) ||
              (open.None? && old(transaction).Some? && old(transaction).value.client in old(abandoned))
      ensures was.runs == old(host.runs) && was.committed == old(host.committed)
      ensures match served
              case None => host.Now() == was
              case Some(message) =>
                && First(open, ready).Some? && message == ready[First(open, ready).value]
                && RanAtMostOne(old(host.runs), host.runs, message.client)
                && if message.client in known then Handled(was, host.Now(), epoch, open, known[message.client], message,
                                                           ok)
                   else !ok && host.Now() == was
    {
      hide Valid, Handled;
      var clean := ForgetGone();
      ready, open, was := queue, transaction, host.Now();
      known := map client | client in connections && client !in abandoned :: connections[client];
      served, ok := None, false;
      if !clean {
        return;
      }
      served := Next();
      if served.Some? && served.value.client !in abandoned && served.value.client in connections {
        ok := Handle(served.value);
      }
    }

    /** Forgets the clients that are gone, but for those that wait for another's transaction. */
    method ForgetGone() returns (ok: bool)
      requires Valid() && busy
      modifies this, host, turns
      ensures Valid() && busy && old(queue) <= queue
      ensures host.runs == old(host.runs) && host.committed == old(host.committed)
      ensures transaction == old(transaction) ||
              (transaction.None? && old(transaction).Some? && old(transaction).value.client in old(abandoned))
    {
      ok := true;
      var gone := abandoned;
      while gone != {}
        invariant Valid() && busy && old(queue) <= queue
        invariant host.runs == old(host.runs) && host.committed == old(host.committed)
        invariant gone <= old(abandoned)
        invariant transaction == old(transaction) ||
                  (transaction.None? && old(transaction).Some? && old(transaction).value.client in old(abandoned))
        decreases |gone|
      {
        var client :| client in gone;
        gone := gone - {client};
        if transaction.None? || transaction.value.client == client {
          ok := Forget(client);
          if !ok {
            return;
          }
        }
      }
    }
  }

  /** While a transaction is open, every statement the engine runs is of the client that began it; and a client's
      requests keep their order, except that its close, or its opening, does not wait for another's transaction. */
  lemma Isolation(b: Broker)
    requires b.Valid()
    ensures forall i :: 0 <= i < |b.host.runs| && b.host.runs[i].open.Some? ==>
              Owned(b.owners, b.host.runs[i].open.value, b.host.runs[i].client)
    ensures match First(b.transaction, b.queue)
            case None => true
            case Some(i) => forall j :: 0 <= j < i && b.queue[j].client == b.queue[i].client ==>
                              b.queue[i].request.call.Close? || b.queue[i].request.call.Init?
  {
  }
}
