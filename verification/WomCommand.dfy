/** The shared wake-on-motion record, each method one section run with interrupts locked. */
module WomCommand {
  import opened Integers
  import opened Wrappers
  import opened WomProtocol

  const PING_LENGTH: nat := 13

  function Be16(high: Byte, low: Byte): Word {
    high as int * 256 + low as int
  }

  /** Bytes 7 to 11 of a PING: flag, big-endian value, big-endian token. */
  function PingOf(data: seq<Byte>): Ping
    requires |data| == PING_LENGTH
  {
    Ping(data[7], Be16(data[8], data[9]), Be16(data[10], data[11]))
  }

  class Command {
    var minutes: Word
    var token: Word
    var cachedMinutes: Word
    var cachedToken: Word
    var result: Word
    var sentToken: Word
    var resultFlag: Byte
    var sentFlag: Byte
    var requested: bool
    var cached: bool
    var responsePending: bool
    var generation: nat

    ghost function View(): Wom
      reads this
    {
      Wom(minutes, token, cachedMinutes, cachedToken, result, sentToken, resultFlag, sentFlag,
          requested, cached, responsePending, generation)
    }

    constructor ()
      ensures View() == CLEAN
    {
      minutes, token, cachedMinutes, cachedToken, result, sentToken := 0, 0, 0, 0, 0, 0;
      resultFlag, sentFlag, requested, cached, responsePending, generation := 0, 0, false, false, false, 0;
    }

    method EsbWomReset()
      modifies this
      ensures View() == Reset(old(View()))
    {
      minutes, token, cachedMinutes, cachedToken, result, sentToken := 0, 0, 0, 0, 0, 0;
      resultFlag, sentFlag, requested, cached, responsePending := 0, 0, false, false, false;
      generation := generation + 1;
    }

    method EsbWomReceive(minutes: Word, token: Word, current: Word)
      modifies this
      ensures View() == Receive(old(View()), minutes, token, current)
    {
      if cached && minutes == cachedMinutes && token == cachedToken
         && (resultFlag == ERROR || minutes == CLEAR || minutes == ENTER || current == result)
      {
        responsePending := true;
        return;
      }
      if requested && minutes == this.minutes && token == this.token {
        return;
      }
      this.minutes, this.token, requested, responsePending := minutes, token, true, false;
      sentToken, sentFlag := 0, NORMAL;
      generation := generation + 1;
    }

    /** The first locked section of the worker: what to do, if anything. */
    method TakeRequest(admitted: bool) returns (work: Option<Work>)
      ensures work == if requested && admitted then Some(Work(minutes, token, generation)) else None
    {
      if !requested || !admitted {
        return None;
      }
      work := Some(Work(minutes, token, generation));
    }

    /** Between the sections: the answer to one attempt. A request that is refused, or that only
        reads the setting, attempts nothing. */
    static method Attempt(minutes: Word, token: Word, errno: Word, current: Word) returns (a: Answer)
      ensures a == Evaluate(minutes, token, errno, current)
      ensures IsResponse(a.flag) && (a.flag == ERROR ==> a.result != 0)
    {
      var clear, enter := minutes == CLEAR, minutes == ENTER;
      var err := if token == 0 || (!clear && !enter && minutes > MAX_MINUTES) then EINVAL
                 else if enter || clear || minutes != 0 then errno else 0;
      var result := if err != 0 then err else if enter then ENTER else if clear then 0
                    else if minutes != 0 then minutes else current;
      if err == 0 && !clear && !enter && result == 0 {
        err := ENOTSUP;
        result := ENOTSUP;
      }
      a := Answer(if err != 0 then ERROR else RESULT, result);
    }

    /** The second locked section: the answer counts only if nothing superseded the request. */
    method CommitAnswer(work: Work, a: Answer)
      requires a.flag < 256
      modifies this
      ensures View() == Commit(old(View()), work, a)
    {
      if work.generation == generation {
        requested, cached := false, true;
        cachedMinutes, cachedToken := work.minutes, work.token;
        result, resultFlag, responsePending := a.result, a.flag, true;
      }
    }

    method EsbWomPreparePing(data: array<Byte>)
      requires data.Length == PING_LENGTH
      modifies data
      ensures PingOf(data[..]) == Prepare(View(), PingOf(old(data[..])))
      ensures data[..7] == old(data[..7]) && data[12] == old(data[12])
    {
      if data[7] == RESULT || data[7] == ERROR {
        data[7] := if responsePending then resultFlag else NORMAL;
        var value := if responsePending then result else 0;
        var answered := if responsePending then cachedToken else 0;
        data[8], data[9] := value / 256, value % 256;
        data[10], data[11] := answered / 256, answered % 256;
      }
    }

    /** The PING was queued for transmission. */
    method PingQueued(data: seq<Byte>)
      requires |data| == PING_LENGTH
      modifies this
      ensures View() == MarkSent(old(View()), PingOf(data))
    {
      sentFlag := data[7];
      sentToken := if data[7] == RESULT || data[7] == ERROR then Be16(data[10], data[11]) else 0;
    }

    /** A NORMAL PONG was accepted. */
    method NormalPong()
      modifies this
      ensures View() == Normal(old(View()))
    {
      if responsePending && sentToken == cachedToken && sentFlag == resultFlag {
        responsePending := false;
        cached := false;
      }
    }
  }
}
