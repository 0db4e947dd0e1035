/**
 * The alert handler configuration manager: it keeps one live alert handler
 * per enabled alert-handler configuration entry, keyed by the entry's DN,
 * and keeps the server's set of registered alert handlers in step with it.
 * Configuration adds, changes and deletes are first offered as "is this
 * acceptable" queries (a dry run of the handler class) and then applied.
 */
module AlertHandlers {
  import opened Wrappers
  import opened ServerTypes

  /** The configuration of one alert handler entry, as far as the manager reads it. */
  datatype AlertHandlerCfg = AlertHandlerCfg(dn: Dn, enabled: bool, javaClass: string)

  /**
   * What reflection finds for a class name and a configuration.
   * `Unloadable`: loading the class, instantiating it or looking up its
   * lifecycle method throws.  `Loadable`: an instance can be made; its
   * initialiser throws `initFailure` (if any); its self-check throws
   * `checkFailure` (if any), or else answers `acceptable` with the `reasons`
   * it lists.  The two lifecycle calls are independent: a self-check can fail
   * for a class whose initialiser succeeds, and the other way round.
   */
  datatype ClassBehaviour =
    | Unloadable(detail: string)
    | Loadable(initFailure: Option<string>, checkFailure: Option<string>, acceptable: bool, reasons: seq<string>)

  /** The class loader of the server, seen as an oracle. */
  type ClassLoader = (string, AlertHandlerCfg) -> ClassBehaviour

  // ---------------------------------------------------------------------
  // Joining a handler's rejection reasons
  // ---------------------------------------------------------------------

  const Separator: string := ".  "

  /** The reasons, in order, with the separator between consecutive ones. */
  function JoinReasons(reasons: seq<string>): (joined: string)
  {
    if |reasons| == 0 then ""
    else if |reasons| == 1 then reasons[0]
    else reasons[0] + Separator + JoinReasons(reasons[1..])
  }

  /** Appending a reason to a non-empty list appends the separator and the reason. */
  lemma {:induction false} JoinReasonsAppend(reasons: seq<string>, reason: string)
    requires |reasons| > 0
    ensures JoinReasons(reasons + [reason]) == JoinReasons(reasons) + Separator + reason
  {
    if |reasons| == 1 {
      assert reasons + [reason] == [reasons[0], reason];
    } else {
      JoinReasonsAppend(reasons[1..], reason);
      assert (reasons + [reason])[1..] == reasons[1..] + [reason];
    }
  }

  /** Joining splits at any reason boundary: the two parts joined, with one separator between them. */
  lemma {:induction false} JoinReasonsSplit(reasons: seq<string>, k: nat)
    requires 0 < k < |reasons|
    ensures JoinReasons(reasons) == JoinReasons(reasons[..k]) + Separator + JoinReasons(reasons[k..])
  {
    if k > 1 {
      JoinReasonsSplit(reasons[1..], k - 1);
      assert reasons[..k][1..] == reasons[1..][..k - 1];
      assert reasons[1..][k - 1..] == reasons[k..];
    }
  }

  /** The length of the joined text: every reason and one separator between each two. */
  lemma {:induction false} JoinReasonsLength(reasons: seq<string>)
    requires |reasons| > 0
    ensures |JoinReasons(reasons)| == TotalSize(reasons) + |Separator| * (|reasons| - 1)
  {
    if |reasons| > 1 {
      JoinReasonsLength(reasons[1..]);
    }
  }

  function TotalSize(texts: seq<string>): (size: nat)
  {
    if texts == [] then 0 else |texts[0]| + TotalSize(texts[1..])
  }

  /**
   * The text of the "configuration not acceptable" message: the first reason,
   * then each further reason preceded by the separator; empty when the
   * handler gave no reason.
   */
  method BuildReasonBuffer(reasons: seq<string>) returns (buffer: string)
    ensures buffer == JoinReasons(reasons)
  {
    buffer := "";
    if |reasons| > 0 {
      buffer := buffer + reasons[0];
      var i := 1;
      while i < |reasons|
        invariant 1 <= i <= |reasons|
        invariant buffer == JoinReasons(reasons[..i])
      {
        JoinReasonsAppend(reasons[..i], reasons[i]);
        assert reasons[..i + 1] == reasons[..i] + [reasons[i]];
        buffer := buffer + Separator;
        buffer := buffer + reasons[i];
        i := i + 1;
      }
      assert reasons[..i] == reasons;
    }
  }

  // ---------------------------------------------------------------------
  // Loading a handler
  // ---------------------------------------------------------------------

  /**
   * The error loading `className` for `cfg` ends in, if any.  Every failure,
   * including a rejection by the handler's own self-check, is reported as
   * one "initialization failed" message naming the class and the DN; a
   * rejection is its cause, carrying the joined reasons.
   */
  function LoadError(loader: ClassLoader, className: string, cfg: AlertHandlerCfg, initialize: bool)
    : (e: Option<Message>)
    ensures e.Some? ==> e.value.AlertHandlerInitializationFailed?
    ensures e.Some? ==> e.value.className == className && e.value.dn == cfg.dn
    ensures loader(className, cfg).Unloadable? ==> e.Some?
    ensures initialize && e.Some? ==> e.value.cause.Thrown?
  {
    match loader(className, cfg)
    case Unloadable(detail) =>
      Some(AlertHandlerInitializationFailed(className, cfg.dn, Thrown(detail)))
    case Loadable(initFailure, checkFailure, acceptable, reasons) =>
      if initialize then
        if initFailure.Some? then
          Some(AlertHandlerInitializationFailed(className, cfg.dn, Thrown(initFailure.value)))
        else None
      else if checkFailure.Some? then
        Some(AlertHandlerInitializationFailed(className, cfg.dn, Thrown(checkFailure.value)))
      else if acceptable then None
      else
        var rejection := AlertHandlerConfigNotAcceptable(cfg.dn, JoinReasons(reasons));
        Some(AlertHandlerInitializationFailed(className, cfg.dn, Raised(rejection)))
  }

  /**
   * A dry run fails exactly when the class cannot be loaded, or its self-check
   * throws, or its self-check says no; only the last is reported as a rejection.
   */
  lemma DryRunFailsIffRejected(loader: ClassLoader, className: string, cfg: AlertHandlerCfg)
    ensures LoadError(loader, className, cfg, false).Some?
            <==> || loader(className, cfg).Unloadable?
                 || loader(className, cfg).checkFailure.Some?
                 || !loader(className, cfg).acceptable
    ensures loader(className, cfg).Loadable? && loader(className, cfg).checkFailure.Some? ==>
      LoadError(loader, className, cfg, false).value.cause == Thrown(loader(className, cfg).checkFailure.value)
    ensures loader(className, cfg).Loadable? && loader(className, cfg).checkFailure.None?
            && !loader(className, cfg).acceptable ==>
      LoadError(loader, className, cfg, false).value.cause
        == Raised(AlertHandlerConfigNotAcceptable(cfg.dn, JoinReasons(loader(className, cfg).reasons)))
  {
  }

  /**
   * The dry run and the full load can disagree either way: some class whose
   * self-check throws can still be installed, and some class whose self-check
   * accepts can still fail to initialise.
   */
  lemma DryRunAndInstallIndependent(className: string, cfg: AlertHandlerCfg)
    ensures var checkThrows: ClassLoader := (c, g) => Loadable(None, Some("self-check threw"), true, []);
      LoadError(checkThrows, className, cfg, false).Some? && LoadError(checkThrows, className, cfg, true).None?
    ensures var initThrows: ClassLoader := (c, g) => Loadable(Some("initialiser threw"), None, true, []);
      LoadError(initThrows, className, cfg, false).None? && LoadError(initThrows, className, cfg, true).Some?
  {
  }

  /** Two behaviours that load alike and whose initialisers fail alike. */
  predicate SameInitialiser(b1: ClassBehaviour, b2: ClassBehaviour)
  {
    if b1.Unloadable? then b2 == b1 else b2.Loadable? && b2.initFailure == b1.initFailure
  }

  /** Two behaviours that load alike and whose self-checks throw or answer alike. */
  predicate SameSelfCheck(b1: ClassBehaviour, b2: ClassBehaviour)
  {
    if b1.Unloadable? then b2 == b1
    else b2.Loadable? && b2.checkFailure == b1.checkFailure
         && b2.acceptable == b1.acceptable && b2.reasons == b1.reasons
  }

  /** The outcome of a full load depends on the initialiser only, never on the self-check. */
  lemma FullLoadIgnoresSelfCheck(l1: ClassLoader, l2: ClassLoader, className: string, cfg: AlertHandlerCfg)
    requires SameInitialiser(l1(className, cfg), l2(className, cfg))
    ensures LoadError(l1, className, cfg, true) == LoadError(l2, className, cfg, true)
  {
  }

  /** The outcome of a dry run depends on the self-check only, never on the initialiser. */
  lemma DryRunIgnoresInitialiser(l1: ClassLoader, l2: ClassLoader, className: string, cfg: AlertHandlerCfg)
    requires SameSelfCheck(l1(className, cfg), l2(className, cfg))
    ensures LoadError(l1, className, cfg, false) == LoadError(l2, className, cfg, false)
  {
  }

  // ---------------------------------------------------------------------
  // Alert handlers
  // ---------------------------------------------------------------------

  /** A live alert handler instance. */
  class AlertHandler {
    /** The name of the handler's class. */
    const className: string
    /** Whether the handler's finalisation hook has run. */
    var finalized: bool

    constructor (className: string)
      ensures this.className == className && !finalized
    {
      this.className := className;
      finalized := false;
    }

    /** The handler's finalisation hook: it releases what the handler holds. */
    method FinalizeAlertHandler()
      modifies this
      ensures finalized
    {
      finalized := true;
    }
  }

  /** No two keys of `m` map to the same handler. */
  ghost predicate Injective(m: map<Dn, AlertHandler>)
  {
    forall d, e :: d in m && e in m && d != e ==> m[d] != m[e]
  }

  lemma RemoveFromInjective(m: map<Dn, AlertHandler>, dn: Dn)
    requires Injective(m) && dn in m
    ensures (m - {dn}).Values == m.Values - {m[dn]}
    ensures Injective(m - {dn})
  {
    var m' := m - {dn};
    forall h | h in m.Values - {m[dn]} ensures h in m'.Values {
      var d :| d in m && m[d] == h;
      assert d in m';
    }
  }

  lemma AddToInjective(m: map<Dn, AlertHandler>, dn: Dn, h: AlertHandler)
    requires Injective(m) && dn !in m && h !in m.Values
    ensures m[dn := h].Values == m.Values + {h}
    ensures Injective(m[dn := h])
  {
    var m' := m[dn := h];
    forall g | g in m.Values ensures g in m'.Values {
      var d :| d in m && m[d] == g;
      assert m'[d] == g;
    }
    assert m'[dn] == h;
  }

  // ---------------------------------------------------------------------
  // The manager
  // ---------------------------------------------------------------------

  class AlertHandlerConfigManager {
    /** The class loader the handlers are loaded through. */
    const loader: ClassLoader
    /** The live handler of each enabled configuration entry, by DN. */
    var alertHandlers: map<Dn, AlertHandler>
    /** The alert handlers registered with the server, to which alerts are sent. */
    var registered: set<AlertHandler>

    /**
     * The registered handlers are exactly the live handlers, each live for one
     * entry only, and none of them has been finalised.
     */
    ghost predicate Valid()
      reads this, registered
    {
      && alertHandlers.Values == registered
      && Injective(alertHandlers)
      && forall h :: h in registered ==> !h.finalized
    }

    /** The handler of entry `dn`, as a set: what removing that entry may touch. */
    function HandlerOf(dn: Dn): set<AlertHandler>
      reads this
    {
      if dn in alertHandlers then {alertHandlers[dn]} else {}
    }

    /** Whether a full load of the configured class succeeds for `cfg`. */
    predicate Installs(cfg: AlertHandlerCfg)
    {
      LoadError(loader, cfg.javaClass, cfg, true).None?
    }

    constructor (loader: ClassLoader)
      ensures this.loader == loader
      ensures alertHandlers == map[] && registered == {}
      ensures Valid()
    {
      this.loader := loader;
      alertHandlers := map[];
      registered := {};
    }

    /**
     * Loads `className` and either initialises the new instance with `cfg`
     * or, for a dry run, asks it whether `cfg` is acceptable.
     */
    method LoadHandler(className: string, cfg: AlertHandlerCfg, initialize: bool)
      returns (r: Result<AlertHandler, Message>)
      ensures r.Err? <==> LoadError(loader, className, cfg, initialize).Some?
      ensures r.Err? ==> r.error == LoadError(loader, className, cfg, initialize).value
      ensures r.Ok? ==> fresh(r.value) && r.value.className == className && !r.value.finalized
    {
      match loader(className, cfg)
      case Unloadable(detail) =>
        r := Err(AlertHandlerInitializationFailed(className, cfg.dn, Thrown(detail)));
      case Loadable(initFailure, checkFailure, acceptable, reasons) =>
        if initialize {
          if initFailure.Some? {
            r := Err(AlertHandlerInitializationFailed(className, cfg.dn, Thrown(initFailure.value)));
            return;
          }
        } else if checkFailure.Some? {
          r := Err(AlertHandlerInitializationFailed(className, cfg.dn, Thrown(checkFailure.value)));
          return;
        } else if !acceptable {
          var buffer := BuildReasonBuffer(reasons);
          var rejection := AlertHandlerConfigNotAcceptable(cfg.dn, buffer);
          r := Err(AlertHandlerInitializationFailed(className, cfg.dn, Raised(rejection)));
          return;
        }
        var handler := new AlertHandler(className);
        r := Ok(handler);
    }

    /**
     * Starts a handler for every enabled entry of the configuration; an entry
     * whose handler fails to load is skipped and the others are still started.
     */
    method InitializeAlertHandlers(configs: seq<AlertHandlerCfg>)
      requires Valid()
      requires forall i, j :: 0 <= i < j < |configs| ==> configs[i].dn != configs[j].dn
      requires forall i :: 0 <= i < |configs| ==> configs[i].dn !in alertHandlers
      modifies this
      ensures Valid()
      ensures alertHandlers.Keys
              == old(alertHandlers).Keys + set c | c in configs && c.enabled && Installs(c) :: c.dn
      ensures forall d :: d in old(alertHandlers) ==> alertHandlers[d] == old(alertHandlers)[d]
      ensures forall c :: c in configs && c.enabled && Installs(c) ==>
        fresh(alertHandlers[c.dn]) && alertHandlers[c.dn].className == c.javaClass
    {
      var i := 0;
      while i < |configs|
        invariant 0 <= i <= |configs|
        invariant Valid()
        invariant alertHandlers.Keys
                  == old(alertHandlers).Keys + set c | c in configs[..i] && c.enabled && Installs(c) :: c.dn
        invariant forall d :: d in old(alertHandlers) ==> alertHandlers[d] == old(alertHandlers)[d]
        invariant forall c :: c in configs[..i] && c.enabled && Installs(c) ==>
          fresh(alertHandlers[c.dn]) && alertHandlers[c.dn].className == c.javaClass
        invariant forall k :: i <= k < |configs| ==> configs[k].dn !in alertHandlers
      {
        var configuration := configs[i];
        assert configs[..i + 1] == configs[..i] + [configuration];
        if configuration.enabled {
          var className := configuration.javaClass;
          var loaded := LoadHandler(className, configuration, true);
          if loaded.Ok? {
            var handler := loaded.value;
            AddToInjective(alertHandlers, configuration.dn, handler);
            alertHandlers := alertHandlers[configuration.dn := handler];
            registered := registered + {handler};
          }
          // otherwise the error is logged and the next entry is processed
        }
        i := i + 1;
      }
      assert configs[..i] == configs;
    }

    /**
     * An entry being added is acceptable when it is disabled, or when a dry run
     * of its class succeeds; otherwise the load error is added to the reasons.
     */
    method IsConfigurationAddAcceptable(cfg: AlertHandlerCfg, unacceptableReasons: seq<Message>)
      returns (acceptable: bool, reasons: seq<Message>)
      ensures acceptable <==> !cfg.enabled || LoadError(loader, cfg.javaClass, cfg, false).None?
      ensures acceptable ==> reasons == unacceptableReasons
      ensures !acceptable ==>
        reasons == unacceptableReasons + [LoadError(loader, cfg.javaClass, cfg, false).value]
    {
      reasons := unacceptableReasons;
      if cfg.enabled {
        var className := cfg.javaClass;
        var loaded := LoadHandler(className, cfg, false);
        if loaded.Err? {
          reasons := reasons + [loaded.error];
          return false, reasons;
        }
      }
      acceptable := true;
    }

    /** A change is checked exactly as an add is. */
    method IsConfigurationChangeAcceptable(cfg: AlertHandlerCfg, unacceptableReasons: seq<Message>)
      returns (acceptable: bool, reasons: seq<Message>)
      ensures acceptable <==> !cfg.enabled || LoadError(loader, cfg.javaClass, cfg, false).None?
      ensures acceptable ==> reasons == unacceptableReasons
      ensures !acceptable ==>
        reasons == unacceptableReasons + [LoadError(loader, cfg.javaClass, cfg, false).value]
    {
      acceptable, reasons := IsConfigurationAddAcceptable(cfg, unacceptableReasons);
    }

    /** A delete is always acceptable. */
    method IsConfigurationDeleteAcceptable(cfg: AlertHandlerCfg, unacceptableReasons: seq<Message>)
      returns (acceptable: bool, reasons: seq<Message>)
      ensures acceptable
      ensures reasons == unacceptableReasons
    {
      acceptable := true;
      reasons := unacceptableReasons;
    }

    /**
     * Applies the addition of an entry: nothing for a disabled entry; for an
     * enabled one, a new handler is loaded, then stored and registered, or the
     * load error is returned with the server's error result code.
     */
    method ApplyConfigurationAdd(cfg: AlertHandlerCfg) returns (r: ConfigChangeResult)
      requires Valid()
      requires cfg.dn !in alertHandlers
      modifies this
      ensures Valid()
      ensures !cfg.enabled ==>
        r == Applied && alertHandlers == old(alertHandlers) && registered == old(registered)
      ensures cfg.enabled && !Installs(cfg) ==>
        && r == ConfigChangeResult(ServerErrorResultCode, false, [LoadError(loader, cfg.javaClass, cfg, true).value])
        && alertHandlers == old(alertHandlers) && registered == old(registered)
      ensures cfg.enabled && Installs(cfg) ==>
        && r == Applied
        && cfg.dn in alertHandlers
        && fresh(alertHandlers[cfg.dn])
        && alertHandlers[cfg.dn].className == cfg.javaClass
        && alertHandlers == old(alertHandlers)[cfg.dn := alertHandlers[cfg.dn]]
        && registered == old(registered) + {alertHandlers[cfg.dn]}
    {
      if !cfg.enabled {
        return Applied;
      }
      r := InstallHandler(cfg);
    }

    /**
     * Loads, stores and registers the handler of an enabled entry that has
     * none: the common tail of an add and of a change that enables an entry.
     */
    method InstallHandler(cfg: AlertHandlerCfg) returns (r: ConfigChangeResult)
      requires Valid()
      requires cfg.dn !in alertHandlers
      modifies this
      ensures Valid()
      ensures !Installs(cfg) ==>
        && r == ConfigChangeResult(ServerErrorResultCode, false, [LoadError(loader, cfg.javaClass, cfg, true).value])
        && alertHandlers == old(alertHandlers) && registered == old(registered)
      ensures Installs(cfg) ==>
        && r == Applied
        && cfg.dn in alertHandlers
        && fresh(alertHandlers[cfg.dn])
        && alertHandlers[cfg.dn].className == cfg.javaClass
        && alertHandlers == old(alertHandlers)[cfg.dn := alertHandlers[cfg.dn]]
        && registered == old(registered) + {alertHandlers[cfg.dn]}
    {
      var resultCode := Success;
      var messages: seq<Message> := [];
      var className := cfg.javaClass;
      var loaded := LoadHandler(className, cfg, true);
      if loaded.Err? {
        if resultCode == Success {
          resultCode := ServerErrorResultCode;
        }
        messages := messages + [loaded.error];
      }
      if resultCode == Success {
        var handler := loaded.value;
        AddToInjective(alertHandlers, cfg.dn, handler);
        alertHandlers := alertHandlers[cfg.dn := handler];
        registered := registered + {handler};
      }
      r := ConfigChangeResult(resultCode, false, messages);
    }

    /**
     * Applies the deletion of an entry: its handler, if it has one, is removed,
     * deregistered and finalised.  The result is always plain success.
     */
    method ApplyConfigurationDelete(cfg: AlertHandlerCfg) returns (r: ConfigChangeResult)
      requires Valid()
      modifies this, HandlerOf(cfg.dn)
      ensures Valid()
      ensures r == Applied
      ensures alertHandlers == old(alertHandlers) - {cfg.dn}
      ensures registered == old(registered) - old(HandlerOf(cfg.dn))
      ensures cfg.dn in old(alertHandlers) ==> old(alertHandlers)[cfg.dn].finalized
    {
      if cfg.dn in alertHandlers {
        var alertHandler := alertHandlers[cfg.dn];
        RemoveFromInjective(alertHandlers, cfg.dn);
        alertHandlers := alertHandlers - {cfg.dn};
        registered := registered - {alertHandler};
        alertHandler.FinalizeAlertHandler();
      }
      r := Applied;
    }

    /**
     * Applies a change to an entry.  Disabling stops the entry's handler, if
     * any.  For an enabled entry that already has a handler nothing changes,
     * but administrative action is required when the configured class differs
     * from the running handler's.  An enabled entry without a handler gets one
     * as on an add.
     */
    method ApplyConfigurationChange(cfg: AlertHandlerCfg) returns (r: ConfigChangeResult)
      requires Valid()
      modifies this, HandlerOf(cfg.dn)
      ensures Valid()
      ensures !cfg.enabled ==>
        && r == Applied
        && alertHandlers == old(alertHandlers) - {cfg.dn}
        && registered == old(registered) - old(HandlerOf(cfg.dn))
        && (cfg.dn in old(alertHandlers) ==> old(alertHandlers)[cfg.dn].finalized)
      ensures cfg.enabled && cfg.dn in old(alertHandlers) ==>
        && r == ConfigChangeResult(Success, cfg.javaClass != old(alertHandlers)[cfg.dn].className, [])
        && alertHandlers == old(alertHandlers) && registered == old(registered)
      ensures cfg.enabled && cfg.dn !in old(alertHandlers) && !Installs(cfg) ==>
        && r == ConfigChangeResult(ServerErrorResultCode, false, [LoadError(loader, cfg.javaClass, cfg, true).value])
        && alertHandlers == old(alertHandlers) && registered == old(registered)
      ensures cfg.enabled && cfg.dn !in old(alertHandlers) && Installs(cfg) ==>
        && r == Applied
        && cfg.dn in alertHandlers
        && fresh(alertHandlers[cfg.dn])
        && alertHandlers[cfg.dn].className == cfg.javaClass
        && alertHandlers == old(alertHandlers)[cfg.dn := alertHandlers[cfg.dn]]
        && registered == old(registered) + {alertHandlers[cfg.dn]}
    {
      var existing := if cfg.dn in alertHandlers then Some(alertHandlers[cfg.dn]) else None;

      if !cfg.enabled {
        if existing.Some? {
          var handler := existing.value;
          RemoveFromInjective(alertHandlers, cfg.dn);
          registered := registered - {handler};
          alertHandlers := alertHandlers - {cfg.dn};
          handler.FinalizeAlertHandler();
        }
        return Applied;
      }

      var className := cfg.javaClass;
      if existing.Some? {
        var adminActionRequired := className != existing.value.className;
        return ConfigChangeResult(Success, adminActionRequired, []);
      }

      r := InstallHandler(cfg);
    }
  }
}
