/**
 * The process-wide name registry of the newest revision: `logger(name,
 * **kwargs)` (also called `getlogger`) returns the logger registered under
 * `name`, configuring it when keywords are given, and otherwise builds a
 * new logger, which registers itself under its name once its construction
 * has finished.
 */
module Registry {
  import opened Python
  import Outputs
  import Loggers

  /** `name or py_file`: a falsy name means the running script's logger. */
  function Key(name: Value, pyFile: string): Value
  {
    if Truthy(name) then name else StrV(pyFile)
  }

  /** The objects `configure` may change on a registered logger. */
  function Footprint(l: Loggers.Logger): set<object>
    reads l, l.root
  {
    {l, l.root.console, l.root.file, l.root.email, l.root.html, l.root.table, l.formatter}
  }

  class Registry {
    /** `all_loggers`. */
    var loggers: map<Value, Loggers.Logger>
    /** The name of the script the process runs. */
    const pyFile: string

    /** Every logger is registered under its own name. */
    predicate Named()
      reads this
    {
      forall k :: k in loggers ==> loggers[k].name == k
    }

    constructor (pyFile: string)
      ensures loggers == map[] && this.pyFile == pyFile && Named()
    {
      loggers := map[];
      this.pyFile := pyFile;
    }

    /**
     * `logger(name, **kwargs)`.  A registered name gives back the same
     * object, reconfigured iff keywords were passed, and registers nothing;
     * an unregistered one gives the logger `Logger(name=name, **kwargs)`
     * builds, registered under its name, or the exception its construction
     * raised, with nothing registered.
     */
    method Logger(name: Value, kwargs: Loggers.Options, fs: Outputs.FileSystem, db: Outputs.Database, pyDir: string,
                  sysinfo: map<string, Value>, now: int) returns (l: Loggers.Logger?, err: Option<Exception>)
      requires Named()
      requires Key(name, pyFile) in loggers ==> loggers[Key(name, pyFile)].Valid()
      modifies this, if Key(name, pyFile) in loggers then Footprint(loggers[Key(name, pyFile)]) else {}
      ensures Named()
      ensures Key(name, pyFile) in old(loggers) ==>
        l == old(loggers)[Key(name, pyFile)] && loggers == old(loggers) && l.Valid() && l.Fixed() == old(l.Fixed())
      ensures Key(name, pyFile) in old(loggers) ==> (l != null &&
        (l.Snap(), err) == if kwargs == map[] then (old(l.Snap()), None) else Loggers.ConfigureSpec(old(l.Snap()), kwargs))
      ensures Key(name, pyFile) !in old(loggers) ==>
        (err.None? <==> Loggers.InitSpec(kwargs, fs.Snap(), pyDir, now).Ok?)
      ensures Key(name, pyFile) !in old(loggers) && err.None? ==> (l != null && fresh(l) && l.Valid()
        && l.name == Key(name, pyFile) && loggers == old(loggers)[Key(name, pyFile) := l]
        && l.Snap() == Loggers.InitSpec(kwargs, fs.Snap(), pyDir, now).value)
      ensures Key(name, pyFile) !in old(loggers) && err.Some? ==>
        l == null && loggers == old(loggers) && err.value == Loggers.InitSpec(kwargs, fs.Snap(), pyDir, now).exc
    {
      var k := Key(name, pyFile);
      if k in loggers {
        l, err := Found(k, kwargs);
      } else {
        l, err := Build(k, kwargs, fs, db, pyDir, sysinfo, now);
      }
    }

    /** A registered logger, reconfigured iff keywords were passed. */
    method Found(k: Value, kwargs: Loggers.Options) returns (l: Loggers.Logger, err: Option<Exception>)
      requires k in loggers && loggers[k].Valid()
      modifies Footprint(loggers[k])
      ensures l == loggers[k] && l.Valid() && l.Fixed() == old(l.Fixed())
      ensures (l.Snap(), err) == if kwargs == map[] then (old(l.Snap()), None) else Loggers.ConfigureSpec(old(l.Snap()), kwargs)
    {
      l := loggers[k];
      err := None;
      if kwargs != map[] {
        err := l.Configure(kwargs);
      }
    }

    /** `Logger(name=k, **kwargs)`, registered under `k` once built. */
    method Build(k: Value, kwargs: Loggers.Options, fs: Outputs.FileSystem, db: Outputs.Database, pyDir: string,
                 sysinfo: map<string, Value>, now: int) returns (l: Loggers.Logger?, err: Option<Exception>)
      requires Named()
      modifies this
      ensures Named()
      ensures err.None? <==> Loggers.InitSpec(kwargs, fs.Snap(), pyDir, now).Ok?
      ensures err.None? ==> (l != null && fresh(l) && l.Valid() && l.name == k && loggers == old(loggers)[k := l]
        && l.Snap() == Loggers.InitSpec(kwargs, fs.Snap(), pyDir, now).value)
      ensures err.Some? ==> l == null && loggers == old(loggers) && err.value == Loggers.InitSpec(kwargs, fs.Snap(), pyDir, now).exc
    {
      l, err := Loggers.Logger.Create(k, kwargs, fs, db, pyDir, sysinfo, now);
      if err.None? {
        Register(k, l);
      }
    }

    /** `all_loggers[self._name] = self`, the last step of `Logger.__init__`. */
    method Register(k: Value, l: Loggers.Logger)
      requires Named() && l.name == k
      modifies this
      ensures loggers == old(loggers)[k := l] && Named()
    {
      loggers := loggers[k := l];
      forall j | j in loggers
        ensures loggers[j].name == j
      {
        if j != k {
          assert j in old(loggers) && loggers[j] == old(loggers)[j];
        }
      }
    }
  }
}
