/**
  * Starter.exec() and the callbacks it registers, as one object whose fields
  * the callbacks update in place: the RUNNING and STOPPED marker files, the
  * shared restart flag, and the calls made on the engine runner. Each method
  * is one callback or command taken as one atomic step, and its postcondition
  * ties the new state to the matching step of module Lifecycle.
  */
module Starter {
  import opened Lifecycle

  class Supervisor {
    /** The RUNNING marker file exists in the data directory. */
    var running: bool
    /** The STOPPED marker file exists in the data directory. */
    var stopped: bool
    /** The restart-pending flag shared by the callbacks and the command handler. */
    var restart: bool
    /** runner.start() and runner.stop() calls made so far, oldest first. */
    var requests: seq<Req>

    ghost function Abs(): State
      reads this
    {
      State(running, stopped, restart, requests)
    }

    ghost predicate Valid()
      reads this
    {
      Exclusive(Abs())
    }

    /**
      * exec(): the flag starts cleared, both markers are deleted, STOPPED is
      * created (`created` is false when that fails), and the runner is started.
      */
    constructor (created: bool)
      ensures Valid()
      ensures Abs() == Initial(created)
      ensures !running && stopped == created && !restart && requests == [Start]
    {
      restart := false;
      requests := [];
      new;
      DeleteMarkers();
      if created {
        stopped := true;
      }
      RequestStart();
    }

    /** Deletes both marker files. */
    method DeleteMarkers()
      modifies this`running, this`stopped
      ensures !running && !stopped
    {
      running, stopped := false, false;
    }

    /** runner.start(): recorded, not executed. */
    method RequestStart()
      modifies this`requests
      ensures requests == old(requests) + [Start]
    {
      requests := requests + [Start];
    }

    /** runner.stop(): recorded, not executed. */
    method RequestStop()
      modifies this`requests
      ensures requests == old(requests) + [Stop]
    {
      requests := requests + [Stop];
    }

    /** restart.getAndSet(false): reads and clears the flag in one step. */
    method TakeRestart() returns (was: bool)
      modifies this`restart
      ensures was == old(restart) && !restart
    {
      was := restart;
      restart := false;
    }

    /**
      * onPrepare: answers true, which blocks the start, exactly when the
      * prepare script failed. It changes nothing.
      */
    method OnPrepare(prepareOk: bool) returns (block: bool)
      ensures block <==> !prepareOk
    {
      if !prepareOk {
        return true;
      }
      return false;
    }

    /**
      * onStarted: deletes both markers; a failed start script stops the
      * runner and leaves no marker, otherwise RUNNING is created.
      */
    method OnStarted(startOk: bool, created: bool)
      modifies this
      ensures Valid()
      ensures Abs() == AfterStarted(old(Abs()), startOk, created)
    {
      DeleteMarkers();
      if !startOk {
        RequestStop();
        return;
      }
      if created {
        running := true;
      }
    }

    /**
      * onStopped: deletes both markers and runs the stop script. Unless that
      * script throws an unchecked exception, STOPPED is created and the
      * restart flag is consumed, starting the runner again if it was set.
      */
    method OnStopped(script: StopScript, created: bool)
      modifies this
      ensures Valid()
      ensures Abs() == AfterStopped(old(Abs()), script, created)
    {
      DeleteMarkers();
      if script == StopUncheckedException {
        return;
      }
      if created {
        stopped := true;
      }
      var pending := TakeRestart();
      if pending {
        RequestStart();
      }
    }

    /**
      * The control observer's handler: START and STOP forward to the runner,
      * RESTART sets the flag and stops; any other string is ignored.
      */
    method Command(cmd: string)
      requires Valid()
      modifies this
      ensures Valid()
      ensures Abs() == AfterCommand(old(Abs()), cmd)
    {
      if cmd == "START" {
        RequestStart();
      } else if cmd == "STOP" {
        RequestStop();
      } else if cmd == "RESTART" {
        restart := true;
        RequestStop();
      }
    }
  }
}
