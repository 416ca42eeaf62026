/** The navigation routes: seven templates, three of which carry one
    `{…}` argument and have a `createRoute` builder. */
module Routes {
  datatype Route = Home | Search | DoctorDetail | Booking | Appointments | Profile | Confirmation

  function Template(r: Route): string {
    match r
    case Home => "home"
    case Search => "search"
    case DoctorDetail => "doctor_detail/{doctorId}"
    case Booking => "booking/{doctorId}"
    case Appointments => "appointments"
    case Profile => "profile"
    case Confirmation => "confirmation/{appointmentId}"
  }

  /** The routes that take an argument. */
  predicate HasArgument(r: Route) {
    r == DoctorDetail || r == Booking || r == Confirmation
  }

  /** The fixed part of an argument route. */
  function Prefix(r: Route): string
    requires HasArgument(r)
  {
    match r
    case DoctorDetail => "doctor_detail/"
    case Booking => "booking/"
    case Confirmation => "confirmation/"
  }

  /** `DoctorDetail.createRoute`, `Booking.createRoute` and `Confirmation.createRoute`. */
  function CreateRoute(r: Route, id: string): (path: string)
    requires HasArgument(r)
    ensures |path| == |Prefix(r)| + |id|
    ensures path[..|Prefix(r)|] == Prefix(r) && path[|Prefix(r)|..] == id
  {
    Prefix(r) + id
  }

  /** Everything after the first '}' of `s`, or nothing when there is none. */
  function AfterClose(s: string): (r: string)
    ensures |r| <= |s|
  {
    if s == [] then [] else if s[0] == '}' then s[1..] else AfterClose(s[1..])
  }

  /** `t` with its first `{name}` segment replaced by `v` (an unclosed
      segment swallows the rest of `t`). */
  function Substitute(t: string, v: string): string {
    if t == [] then [] else if t[0] == '{' then v + AfterClose(t[1..]) else [t[0]] + Substitute(t[1..], v)
  }

  lemma {:induction false} AfterCloseOfName(name: string, rest: string)
    requires forall i :: 0 <= i < |name| ==> name[i] != '}'
    ensures AfterClose(name + "}" + rest) == rest
  {
    if name == [] {
      assert name + "}" + rest == ['}'] + rest;
    } else {
      assert (name + "}" + rest)[1..] == name[1..] + "}" + rest;
      AfterCloseOfName(name[1..], rest);
    }
  }

  /** Substituting into `prefix{name}` gives `prefix` followed by the value. */
  lemma {:induction false} SubstituteAfterPrefix(prefix: string, name: string, v: string)
    requires forall i :: 0 <= i < |prefix| ==> prefix[i] != '{'
    requires forall i :: 0 <= i < |name| ==> name[i] != '}'
    ensures Substitute(prefix + "{" + name + "}", v) == prefix + v
  {
    if prefix == [] {
      var t := "{" + name + "}";
      assert prefix + "{" + name + "}" == t;
      assert t[1..] == name + "}" + [];
      AfterCloseOfName(name, []);
    } else {
      assert (prefix + "{" + name + "}")[1..] == prefix[1..] + "{" + name + "}";
      SubstituteAfterPrefix(prefix[1..], name, v);
      assert [prefix[0]] + (prefix[1..] + v) == prefix + v;
    }
  }

  /** Filling the template's placeholder with `id` gives exactly `createRoute(id)`. */
  lemma {:induction false} TemplateInstantiates(r: Route, id: string)
    requires HasArgument(r)
    ensures Substitute(Template(r), id) == CreateRoute(r, id)
  {
    match r {
      case DoctorDetail =>
        assert Template(r) == "doctor_detail/" + "{" + "doctorId" + "}";
        Instantiate("doctor_detail/", "doctorId", id);
      case Booking =>
        assert Template(r) == "booking/" + "{" + "doctorId" + "}";
        Instantiate("booking/", "doctorId", id);
      case Confirmation =>
        assert Template(r) == "confirmation/" + "{" + "appointmentId" + "}";
        Instantiate("confirmation/", "appointmentId", id);
    }
  }

  /** One argument template, instantiated. */
  lemma Instantiate(prefix: string, name: string, id: string)
    requires '{' !in prefix && '}' !in name
    ensures Substitute(prefix + "{" + name + "}", id) == prefix + id
  {
    SubstituteAfterPrefix(prefix, name, id);
  }

  /** Different arguments give different paths, and paths of different
      routes never coincide. */
  lemma {:induction false} CreateRouteInjective(r: Route, s: Route, a: string, b: string)
    requires HasArgument(r) && HasArgument(s)
    ensures CreateRoute(r, a) == CreateRoute(s, b) <==> r == s && a == b
  {
    if CreateRoute(r, a) == CreateRoute(s, b) {
      assert CreateRoute(r, a)[0] == Prefix(r)[0];
      assert CreateRoute(s, b)[0] == Prefix(s)[0];
      assert r == s;
    }
  }

  /** The seven templates are pairwise distinct. */
  lemma TemplatesDistinct(r: Route, s: Route)
    ensures Template(r) == Template(s) <==> r == s
  {
    if r != s {
      assert |Template(r)| != |Template(s)|;
    }
  }
}
