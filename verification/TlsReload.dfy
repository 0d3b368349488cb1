/** Certificate reload as one transaction: the default context, the per-host contexts
    and the remembered material change together or not at all. Building a context out of
    material and files is the TLS library's work, here the argument `make`. */
module TlsReload {
  import opened Common

  datatype Material = Material(host: string, certFile: string, keyFile: string, certPem: string, keyPem: string,
                               keyPassword: string, pkcs12File: string, pkcs12: string)

  /** Why a reload was refused. */
  datatype ReloadError = CertOnlyOverBundle | KeyOnlyOverBundle | DefaultRefused | HostRefused(host: string)

  datatype Result<+T> = Ok(value: T) | Err(error: ReloadError)

  /** ctx: the default context; callback: the servername callback is on it; sni and
      sniCtx: the per-host material and contexts, parallel; material: what a bare reload
      reads again; keyPw: the passphrase the engine was built with. */
  datatype Tls<+C> = Tls(ctx: C, callback: bool, sni: seq<Material>, sniCtx: seq<C>, material: Material, keyPw: string,
                         lastError: Option<ReloadError>)

  /** cert, key: the given paths, "" for none; sni: the given hosts, [] for none; make:
      what the TLS library answers for each material at this moment. */
  datatype Reload<!C> = Reload(cert: string, key: string, sni: seq<Material>, make: Material -> Option<C>)

  predicate FromBundle(m: Material)
  {
    m.pkcs12 != "" || m.pkcs12File != ""
  }

  /** The material a reload asks for. */
  function Resolve(m: Material, keyPw: string, cert: string, key: string): Result<Material>
  {
    if cert != "" && key == "" && FromBundle(m) then Err(CertOnlyOverBundle)
    else if cert == "" && key != "" && FromBundle(m) then Err(KeyOnlyOverBundle)
    else
      var m1 := if cert != "" then m.(certFile := cert, certPem := "", pkcs12 := "", pkcs12File := "") else m;
      var m2 := if key != "" then m1.(keyFile := key, keyPem := "", pkcs12 := "", pkcs12File := "") else m1;
      Ok(m2.(keyPassword := keyPw))
  }

  /** A context for every host, or the first host that could not be built. */
  function BuildAll<C(!new)>(mats: seq<Material>, make: Material -> Option<C>): (r: Result<seq<C>>)
    ensures r.Ok? ==> |r.value| == |mats| && forall i | 0 <= i < |mats| :: make(mats[i]) == Some(r.value[i])
    ensures r.Err? <==> exists i | 0 <= i < |mats| :: make(mats[i]).None?
  {
    if mats == [] then Ok([])
    else
      match make(mats[0])
      case None => Err(HostRefused(mats[0].host))
      case Some(c) =>
        match BuildAll(mats[1..], make)
        case Err(e) =>
          assert exists i | 0 <= i < |mats| :: make(mats[i]).None? by {
            var i :| 0 <= i < |mats[1..]| && make(mats[1..][i]).None?;
            assert make(mats[i + 1]).None?;
          }
          Err(e)
        case Ok(cs) => Ok([c] + cs)
  }

  function HostsFor<C>(e: Tls<C>, r: Reload<C>): seq<Material>
  {
    if r.sni == [] then e.sni else r.sni
  }

  function Apply<C(!new)>(e: Tls<C>, r: Reload<C>): Tls<C>
  {
    match Resolve(e.material, e.keyPw, r.cert, r.key)
    case Err(why) => e.(lastError := Some(why))
    case Ok(m) =>
      match r.make(m)
      case None => e.(lastError := Some(DefaultRefused))
      case Some(ctx) =>
        var hosts := HostsFor(e, r);
        match BuildAll(hosts, r.make)
        case Err(why) => e.(lastError := Some(why))
        case Ok(ctxs) => Tls(ctx, hosts != [], hosts, ctxs, m, e.keyPw, None)
  }

  /** vq_engine_new's TLS part: `None` if any context could not be built. */
  function Create<C(!new)>(m: Material, sni: seq<Material>, make: Material -> Option<C>): Option<Tls<C>>
  {
    match make(m)
    case None => None
    case Some(ctx) =>
      match BuildAll(sni, make)
      case Err(_) => None
      case Ok(ctxs) => Some(Tls(ctx, sni != [], sni, ctxs, m, m.keyPassword, None))
  }

  predicate Accepted<C(!new)>(e: Tls<C>, r: Reload<C>)
  {
    Apply(e, r).lastError.None?
  }

  // ---- one reload ----------------------------------------------------------

  /** Exactly when a reload is refused: it names one half of a pair over a PKCS#12
      bundle, or the library refuses the default material or some host's. */
  lemma {:induction false} RefusedExactlyWhen<C(!new)>(e: Tls<C>, r: Reload<C>)
    ensures !Accepted(e, r) <==>
            || (FromBundle(e.material) && (r.cert == "") != (r.key == ""))
            || r.make(Resolve(e.material, e.keyPw, r.cert, r.key).value).None?
            || (exists i | 0 <= i < |HostsFor(e, r)| :: r.make(HostsFor(e, r)[i]).None?)
  {
  }

  /** What a refused reload reports: the half of a pair first, then the default material,
      then the first host the library refuses. */
  lemma {:induction false} RefusalNamesTheCause<C(!new)>(e: Tls<C>, r: Reload<C>)
    ensures var why, hosts := Apply(e, r).lastError, HostsFor(e, r);
            if FromBundle(e.material) && r.cert != "" && r.key == "" then why == Some(CertOnlyOverBundle)
            else if FromBundle(e.material) && r.cert == "" && r.key != "" then why == Some(KeyOnlyOverBundle)
            else if r.make(Resolve(e.material, e.keyPw, r.cert, r.key).value).None? then why == Some(DefaultRefused)
            else
              forall i | 0 <= i < |hosts| && r.make(hosts[i]).None? && (forall j | 0 <= j < i :: r.make(hosts[j]).Some?)
                :: why == Some(HostRefused(hosts[i].host))
  {
    var hosts := HostsFor(e, r);
    forall i | 0 <= i < |hosts| && r.make(hosts[i]).None? && (forall j | 0 <= j < i :: r.make(hosts[j]).Some?)
      ensures BuildAll(hosts, r.make) == Err(HostRefused(hosts[i].host))
    {
      FirstRefused(hosts, r.make, i);
    }
  }

  lemma {:induction false} FirstRefused<C(!new)>(mats: seq<Material>, make: Material -> Option<C>, i: nat)
    requires i < |mats| && make(mats[i]).None? && forall j | 0 <= j < i :: make(mats[j]).Some?
    ensures BuildAll(mats, make) == Err(HostRefused(mats[i].host))
  {
    if i > 0 {
      assert make(mats[0]).Some?;
      FirstRefused(mats[1..], make, i - 1);
    }
  }

  /** A refused reload changes nothing but the error it reports. */
  lemma {:induction false} RefusedChangesNothing<C(!new)>(e: Tls<C>, r: Reload<C>)
    requires !Accepted(e, r)
    ensures Apply(e, r) == e.(lastError := Apply(e, r).lastError)
  {
  }

  // ---- every sequence of reloads --------------------------------------------

  function Run<C(!new)>(e: Tls<C>, rs: seq<Reload<C>>): Tls<C>
  {
    if rs == [] then e else Apply(Run(e, rs[..|rs| - 1]), rs[|rs| - 1])
  }

  /** What the library answered when everything now in service was built: the answers of
      the last accepted reload, or of the creation. */
  function InService<C(!new)>(e: Tls<C>, make: Material -> Option<C>, rs: seq<Reload<C>>): Material -> Option<C>
  {
    if rs == [] then make
    else
      var last := rs[|rs| - 1];
      if Accepted(Run(e, rs[..|rs| - 1]), last) then last.make else InService(e, make, rs[..|rs| - 1])
  }

  /** The last path an accepted reload gave, or the one configured. */
  function LastCert<C(!new)>(e: Tls<C>, rs: seq<Reload<C>>): string
  {
    if rs == [] then e.material.certFile
    else
      var last := rs[|rs| - 1];
      if Accepted(Run(e, rs[..|rs| - 1]), last) && last.cert != "" then last.cert else LastCert(e, rs[..|rs| - 1])
  }

  function LastKey<C(!new)>(e: Tls<C>, rs: seq<Reload<C>>): string
  {
    if rs == [] then e.material.keyFile
    else
      var last := rs[|rs| - 1];
      if Accepted(Run(e, rs[..|rs| - 1]), last) && last.key != "" then last.key else LastKey(e, rs[..|rs| - 1])
  }

  /** The last host list an accepted reload gave, or the one configured. */
  function LastHosts<C(!new)>(e: Tls<C>, rs: seq<Reload<C>>): seq<Material>
  {
    if rs == [] then e.sni
    else
      var last := rs[|rs| - 1];
      if Accepted(Run(e, rs[..|rs| - 1]), last) && last.sni != [] then last.sni else LastHosts(e, rs[..|rs| - 1])
  }

  /** Some accepted reload gave a certificate path, or a key path. */
  predicate GaveCert<C(!new)>(e: Tls<C>, rs: seq<Reload<C>>)
  {
    && rs != []
    && var before, last := rs[..|rs| - 1], rs[|rs| - 1];
       (last.cert != "" && Accepted(Run(e, before), last)) || GaveCert(e, before)
  }

  predicate GaveKey<C(!new)>(e: Tls<C>, rs: seq<Reload<C>>)
  {
    && rs != []
    && var before, last := rs[..|rs| - 1], rs[|rs| - 1];
       (last.key != "" && Accepted(Run(e, before), last)) || GaveKey(e, before)
  }

  /** The in-memory material that was configured, as far as no path replaced it. */
  function Configured<C(!new)>(e: Tls<C>, rs: seq<Reload<C>>): Material
  {
    var cert, key := GaveCert(e, rs), GaveKey(e, rs);
    e.material.(certFile := LastCert(e, rs), keyFile := LastKey(e, rs),
                certPem := if cert then "" else e.material.certPem,
                keyPem := if key then "" else e.material.keyPem,
                pkcs12 := if cert || key then "" else e.material.pkcs12,
                pkcs12File := if cert || key then "" else e.material.pkcs12File)
  }

  /** A path that was accepted replaces the material it stands for, in memory or in a
      bundle, for good; everything else stays as configured. */
  lemma {:induction false} PathsReplaceWhatTheyStandFor<C(!new)>(m: Material, sni: seq<Material>,
                                                                 make: Material -> Option<C>, rs: seq<Reload<C>>)
    requires Create(m, sni, make).Some?
    ensures var e := Create(m, sni, make).value;
            Run(e, rs).material == Configured(e, rs)
  {
    if rs != [] {
      var before, last := rs[..|rs| - 1], rs[|rs| - 1];
      PathsReplaceWhatTheyStandFor(m, sni, make, before);
      ReloadsAreTransactions(m, sni, make, before);
      var e := Run(Create(m, sni, make).value, before);
      if Accepted(e, last) {
        AcceptedMaterial(e, last);
      } else {
        RefusedChangesNothing(e, last);
      }
    }
  }

  lemma {:induction false} AcceptedMaterial<C(!new)>(e: Tls<C>, r: Reload<C>)
    requires Accepted(e, r)
    ensures Ok(Apply(e, r).material) == Resolve(e.material, e.keyPw, r.cert, r.key)
  {
  }

  /** Every context in service was built from the material beside it by `make`. */
  ghost predicate BuiltFrom<C(!new)>(e: Tls<C>, make: Material -> Option<C>)
  {
    && make(e.material) == Some(e.ctx)
    && |e.sniCtx| == |e.sni|
    && forall i | 0 <= i < |e.sni| :: make(e.sni[i]) == Some(e.sniCtx[i])
  }

  /** After every sequence of reloads: all contexts in service come from one and the same
      accepted reload (or the creation), never a mix; host material and host contexts run
      parallel; the servername callback is installed exactly when there are hosts; the
      passphrase is the one the engine was built with; and the remembered paths and hosts
      are the last ones that were accepted, so a bare reload reads those again. */
  lemma {:induction false} ReloadsAreTransactions<C(!new)>(m: Material, sni: seq<Material>,
                                                    make: Material -> Option<C>, rs: seq<Reload<C>>)
    requires Create(m, sni, make).Some?
    ensures var e0 := Create(m, sni, make).value;
            var e := Run(e0, rs);
            && BuiltFrom(e, InService(e0, make, rs))
            && (e.callback <==> e.sni != [])
            && e.keyPw == m.keyPassword && e.material.keyPassword == e.keyPw
            && e.material.certFile == LastCert(e0, rs) && e.material.keyFile == LastKey(e0, rs)
            && e.sni == LastHosts(e0, rs)
  {
    if rs != [] {
      var before := rs[..|rs| - 1];
      ReloadsAreTransactions(m, sni, make, before);
      var e := Run(Create(m, sni, make).value, before);
      if !Accepted(e, rs[|rs| - 1]) {
        RefusedChangesNothing(e, rs[|rs| - 1]);
      }
    }
  }

  /** A bare reload asks for exactly the remembered material, hosts included. */
  lemma {:induction false} BareReloadRereadsRemembered<C(!new)>(e: Tls<C>, make: Material -> Option<C>)
    requires e.material.keyPassword == e.keyPw
    ensures var e' := Apply(e, Reload("", "", [], make));
            && e'.material == e.material && e'.sni == e.sni
            && (Accepted(e, Reload("", "", [], make)) ==> make(e.material) == Some(e'.ctx))
            && (Accepted(e, Reload("", "", [], make)) <==> make(e.material).Some? && BuildAll(e.sni, make).Ok?)
  {
  }

  // ---- the object ----------------------------------------------------------

  /** Appending one more host to a finished prefix. */
  lemma {:induction false} BuildAllAppend<C(!new)>(mats: seq<Material>, k: nat, make: Material -> Option<C>)
    requires k < |mats| && BuildAll(mats[..k], make).Ok?
    ensures make(mats[k]).None? ==> BuildAll(mats, make) == Err(HostRefused(mats[k].host))
    ensures make(mats[k]).Some?
            ==> BuildAll(mats[..k + 1], make) == Ok(BuildAll(mats[..k], make).value + [make(mats[k]).value])
    decreases k
  {
    if k > 0 {
      assert mats[..k][0] == mats[0] && mats[..k][1..] == mats[1..][..k - 1];
      assert mats[..k + 1][1..] == mats[1..][..k];
      BuildAllAppend(mats[1..], k - 1, make);
      if make(mats[k]).Some? {
        var c, cs := make(mats[0]).value, BuildAll(mats[1..][..k - 1], make).value;
        assert mats[..k + 1][0] == mats[0];
        assert BuildAll(mats[..k + 1], make) == Ok([c] + (cs + [make(mats[k]).value]));
        assert [c] + (cs + [make(mats[k]).value]) == ([c] + cs) + [make(mats[k]).value];
      }
    } else {
      assert mats[..0] == [] && mats[..1][1..] == [];
      assert BuildAll(mats[..1][1..], make) == Ok([]);
      assert make(mats[0]).Some? ==> [make(mats[0]).value] + [] == [] + [make(mats[0]).value];
    }
  }

  /** buildSniCtxs: all or nothing. */
  method BuildSniCtxs<C(!new)>(mats: seq<Material>, make: Material -> Option<C>) returns (out: Result<seq<C>>)
    ensures out == BuildAll(mats, make)
  {
    var built: seq<C> := [];
    for k := 0 to |mats|
      invariant BuildAll(mats[..k], make) == Ok(built)
    {
      BuildAllAppend(mats, k, make);
      var c := make(mats[k]);
      if c.None? {
        return Err(HostRefused(mats[k].host));
      }
      built := built + [c.value];
    }
    assert mats[..|mats|] == mats;
    return Ok(built);
  }

  class TlsEngine<C(!new)> {
    var ctx: C
    var callback: bool
    var sni: seq<Material>
    var sniCtx: seq<C>
    var material: Material
    var keyPw: string
    var lastError: Option<ReloadError>

    ghost function State(): Tls<C>
      reads this
    {
      Tls(ctx, callback, sni, sniCtx, material, keyPw, lastError)
    }

    constructor (e: Tls<C>)
      ensures State() == e
    {
      ctx, callback, sni, sniCtx := e.ctx, e.callback, e.sni, e.sniCtx;
      material, keyPw, lastError := e.material, e.keyPw, e.lastError;
    }

    /** The material the given paths ask for, worked out on a copy. */
    method Stage(cert: string, key: string) returns (staged: Result<Material>)
      ensures staged == Resolve(material, keyPw, cert, key)
    {
      var m := material;
      var p12Sourced := m.pkcs12 != "" || m.pkcs12File != "";
      if cert != "" && key == "" && p12Sourced {
        return Err(CertOnlyOverBundle);
      }
      if cert != "" {
        m := m.(certFile := cert, certPem := "", pkcs12 := "", pkcs12File := "");
      }
      if key != "" {
        if cert == "" && p12Sourced {
          return Err(KeyOnlyOverBundle);
        }
        m := m.(keyFile := key, keyPem := "", pkcs12 := "", pkcs12File := "");
      }
      return Ok(m.(keyPassword := keyPw));
    }

    /** vq_engine_reload_cert: stage everything, publish only at the end. */
    method ReloadCert(r: Reload<C>) returns (rv: int)
      modifies this
      ensures State() == Apply(old(State()), r)
      ensures rv == if Accepted(old(State()), r) then 0 else -1
    {
      lastError := None;
      var staged := Stage(r.cert, r.key);
      if staged.Err? {
        lastError := Some(staged.error);
        return -1;
      }
      var m := staged.value;
      var made := r.make(m);
      if made.None? {
        lastError := Some(DefaultRefused);
        return -1;
      }
      var hosts := if r.sni == [] then sni else r.sni;
      var built := BuildSniCtxs(hosts, r.make);
      if built.Err? {
        lastError := Some(built.error);
        return -1;
      }
      sni := hosts;
      sniCtx := built.value;
      callback := hosts != [];
      ctx := made.value;
      material := m;
      return 0;
    }
  }
}
