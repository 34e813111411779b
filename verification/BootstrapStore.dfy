/** The bootstrap in the source's own order of effects. */
module BootstrapStore {
  import opened Runs
  import opened Bootstrap
  import opened BootstrapRuns

  class Store {
    var config: Leaf
    var data: Leaf
    var staged: Staged
    var marker: Option<Settings>
    var pending: Option<Settings>
    var serving: bool
    var generation: nat
    var fuel: nat
    var halt: Halt

    function Snapshot(): State
      reads this
    {
      State(config, data, staged, marker, pending, serving, generation, fuel, halt)
    }

    ghost predicate Reports<T>(r: Status<T, Halt>)
      reads this
    {
      if r.Ok? then halt == Running else halt == r.error && halt != Running
    }

    method Pay() returns (r: Status<(), Halt>)
      requires halt == Running
      modifies this`fuel, this`halt
      ensures Snapshot() == Spend(old(Snapshot())) && Reports(r)
    {
      if fuel == 0 {
        halt := Died;
        return Err(Died);
      }
      fuel := fuel - 1;
      return Ok(());
    }

    method Fail<T>(why: Halt) returns (r: Status<T, Halt>)
      requires halt == Running && why != Running
      modifies this`halt
      ensures Snapshot() == Refuse(old(Snapshot()), why) && Reports(r) && r.Err?
    {
      halt := why;
      return Err(why);
    }

    /** Every declared user but the administrator, one request each; existing users stay. */
    method Accounts(site: Site, s: Settings) returns (r: Status<(), Halt>)
      requires halt == Running
      modifies this
      ensures Snapshot() == CreateUsers(old(Snapshot()), site, s.users, s.admin) && Reports(r)
    {
      for i := 0 to |s.users|
        invariant halt == Running
        invariant CreateUsers(Snapshot(), site, s.users[i..], s.admin) == CreateUsers(old(Snapshot()), site, s.users, s.admin)
      {
        assert s.users[i..][1..] == s.users[i + 1..];
        if s.users[i] != s.admin {
          UsersHaveShape(CreateUser(Snapshot(), site, s.users[i]), site, s.users[i + 1..], s.admin);
          var _ :- Pay();
          match site {
            case AtRoot =>
              if config.Dir? { config := config.(accounts := config.accounts.Add(s.users[i])); }
            case AtStage =>
              if staged.Stage? && staged.config.Dir? {
                staged := staged.(config := staged.config.(accounts := staged.config.accounts.Add(s.users[i])));
              }
          }
        }
      }
      return Ok(());
    }

    method Start(site: Site, chance: Chance) returns (r: Status<(), Halt>)
      requires halt == Running
      modifies this
      ensures Snapshot() == StartContainer(old(Snapshot()), site, chance) && Reports(r)
    {
      var _ :- Pay();
      match site {
        case AtRoot =>
          if config.Dir? { config := config.(database := true); }
        case AtStage =>
          if staged.Stage? && staged.config.Dir? && staged.data.Dir? {
            staged := Stage(staged.config.(database := true), staged.data.(other := staged.data.other || chance.writesData));
          }
      }
      return Ok(());
    }

    method Setup(s: Settings) returns (r: Status<(), Halt>)
      requires halt == Running
      modifies this
      ensures Snapshot() == RunSetup(old(Snapshot()), s) && Reports(r)
    {
      var _ :- Pay();
      if staged.Stage? && staged.config.Dir? {
        staged := staged.(config := staged.config.(native := Some(Native(s.url, s.admin)),
                                                   accounts := staged.config.accounts.Add(s.admin)));
      }
      return Ok(());
    }

    method MoveConfig() returns (r: Status<(), Halt>)
      requires halt == Running
      modifies this
      ensures Snapshot() == PublishConfig(old(Snapshot())) && Reports(r)
    {
      if staged.Stage? && staged.config.Dir? {
        if config.Dir? {
          if !Empty(config) {
            r := Fail(Binding);
            return;
          }
          var _ :- Pay();
          config := Missing;
        }
        var _ :- Pay();
        config, staged := staged.config, staged.(config := Missing);
      } else if config.Missing? {
        r := Fail(Binding);
        return;
      }
      return Ok(());
    }

    method MoveData() returns (r: Status<(), Halt>)
      requires halt == Running
      modifies this
      ensures Snapshot() == PublishData(old(Snapshot())) && Reports(r)
    {
      if staged.Stage? && staged.data.Dir? {
        if data.Dir? {
          if !Empty(data) {
            r := Fail(Binding);
            return;
          }
          var _ :- Pay();
          data := Missing;
        }
        var _ :- Pay();
        data, staged := staged.data, staged.(data := Missing);
      } else if data.Missing? {
        r := Fail(Binding);
        return;
      }
      return Ok(());
    }

    method Publish(s: Settings) returns (r: Status<(), Halt>)
      requires halt == Running
      modifies this
      ensures Snapshot() == PublishInitial(old(Snapshot()), s) && Reports(r)
    {
      hide PublishConfig, PublishData;
      var _ :- MoveConfig();
      var _ :- MoveData();
      if !(config.Dir? && config.native.Some?) {
        r := Fail(Io);
        return;
      }
      if !NativeMatches(config, s) {
        r := Fail(Binding);
        return;
      }
      var _ :- Pay();
      marker := Some(s);
      var _ :- Pay();
      pending := None;
      if staged.Stage? {
        if staged != Stage(Missing, Missing) {
          r := Fail(Io);
          return;
        }
        var _ :- Pay();
        staged := NoStage;
      }
      return Ok(());
    }

    method Lay() returns (r: Status<(), Halt>)
      requires halt == Running
      modifies this
      ensures Snapshot() == LayStage(old(Snapshot())) && Reports(r)
    {
      if staged.Stage? {
        r := Fail(Io);
        return;
      }
      var _ :- Pay();
      staged, generation := Stage(Missing, Missing), generation + 1;
      var _ :- Pay();
      staged := Stage(NewDir(Built(generation)), Missing);
      var _ :- Pay();
      staged := Stage(NewDir(Built(generation)), NewDir(Built(generation)));
      return Ok(());
    }

    method Build(s: Settings, chance: Chance) returns (r: Status<(), Halt>)
      requires halt == Running
      modifies this
      ensures Snapshot() == BuildStage(old(Snapshot()), s, chance) && Reports(r)
    {
      hide LayStage;
      BuildHalted(LayStage(Snapshot()), s, chance);
      var _ :- Lay();
      var _ :- Start(AtStage, chance);
      var _ :- Setup(s);
      r := Accounts(AtStage, s);
    }

    method Wipe(chance: Chance) returns (r: Status<(), Halt>)
      requires halt == Running
      modifies this
      ensures Snapshot() == WipeStage(old(Snapshot()), chance) && Reports(r)
    {
      if staged.Stage? {
        var _ :- Pay();
        staged := if chance.configFirst then Stage(Missing, staged.data) else Stage(staged.config, Missing);
        var _ :- Pay();
        staged := NoStage;
      }
      return Ok(());
    }

    method Bootstrap(s: Settings, chance: Chance) returns (r: Status<(), Halt>)
      requires halt == Running
      modifies this
      ensures Snapshot() == BootstrapNew(old(Snapshot()), s, chance) && Reports(r)
    {
      hide PublishInitial, BuildStage, WipeStage;
      if pending.Some? {
        if pending != Some(s) {
          r := Fail(Binding);
          return;
        }
      } else {
        if config.Missing? {
          r := Fail(Io);
          return;
        }
        if !Empty(config) {
          r := Fail(Binding);
          return;
        }
        if data.Missing? {
          r := Fail(Io);
          return;
        }
        if !Empty(data) || staged.Stage? {
          r := Fail(Binding);
          return;
        }
        var _ :- Pay();
        pending := Some(s);
      }
      BuildSkipped(WipeStage(Snapshot(), chance), s, chance);
      var _ :- Wipe(chance);
      var _ :- Build(s, chance);
      if !(staged.Stage? && NativeMatches(staged.config, s)) {
        r := Fail(Binding);
        return;
      }
      r := Publish(s);
    }

    method Run(s: Settings, chance: Chance) returns (r: Status<(), Halt>)
      requires halt == Running
      modifies this
      ensures Snapshot() == Initialize(old(Snapshot()), s, chance) && Reports(r)
    {
      hide PublishInitial, BootstrapNew;
      var native := config.Dir? && config.native.Some?;
      var database := config.Dir? && config.database;
      if !native && (marker.Some? || database) {
        r := Fail(Binding);
        return;
      }
      if native && !NativeMatches(config, s) {
        r := Fail(Binding);
        return;
      }
      if marker.Some? {
        if !database {
          r := Fail(Binding);
          return;
        }
        if marker.value == s {
          if pending.Some? {
            if pending.value != s {
              r := Fail(Binding);
              return;
            }
            r := Publish(s);
            return;
          }
          return Ok(());
        }
      }
      if serving {
        r := Fail(Binding);
        return;
      }
      if !native {
        r := Bootstrap(s, chance);
        return;
      }
      if pending.Some? {
        if pending.value != s {
          r := Fail(Binding);
          return;
        }
        r := Publish(s);
        return;
      }
      UsersHaveShape(StartContainer(Snapshot(), AtRoot, chance), AtRoot, s.users, s.admin);
      var _ :- Start(AtRoot, chance);
      var _ :- Accounts(AtRoot, s);
      var _ :- Pay();
      marker := Some(s);
      return Ok(());
    }
  }

  /** A build that was cut has no later effects. */
  lemma BuildHalted(w: State, s: Settings, chance: Chance)
    ensures var w1 := StartContainer(w, AtStage, chance);
      var w2 := RunSetup(w1, s);
      var r := CreateUsers(w2, AtStage, s.users, s.admin);
      (!w.Live() ==> r == w) && (!w1.Live() ==> r == w1) && (!w2.Live() ==> r == w2)
  {
    UsersHaveShape(RunSetup(StartContainer(w, AtStage, chance), s), AtStage, s.users, s.admin);
  }

  lemma BuildSkipped(w: State, s: Settings, chance: Chance)
    ensures !w.Live() ==> BuildStage(w, s, chance) == w
  {
    BuildHalted(LayStage(w), s, chance);
  }
}
