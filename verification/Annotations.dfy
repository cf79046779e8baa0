/** Reading service annotations (annotations/service_annotation.go). */
module Annotations {
  import opened Text
  import opened Kube

  const CLASS_KEY := "kubernetes.io/loadbalancer-class"
  const CLASS_VALUE := "loadbalancer-lbex"
  const PORT_BASE := "loadbalancer-port.lbex/"
  const PASSTHROUGH_KEY := "loadbalancer.lbex/passthrough"
  const ALGORITHM_KEY := "loadbalancer.lbex/algorithm"
  const METHOD_KEY := "loadbalancer.lbex/method"
  const HOST_KEY := "loadbalancer.lbex/host"
  const RESOLVER_KEY := "loadbalancer.lbex/resolver"
  const UPSTREAM_TYPE_KEY := "loadbalancer.lbex/upstream-type"
  const NODE_ADDRESS_TYPE_KEY := "loadbalancer.lbex/node-address-type"
  const NODE_SET_KEY := "loadbalancer.lbex/node-set"
  const POOL_KEY := "loadbalancer.lbex/service-pool"

  /** Outcome of a read; callers only tell a missing annotation from any other error. */
  datatype Reading<+T> = Found(value: T) | Missing | Failed

  function RawAnnotation(name: string, s: Service): Reading<string> {
    if name == "" then Failed
    else if name in s.annotations then Found(s.annotations[name])
    else Missing
  }

  /** `GetIntAnnotation`. */
  function IntAnnotation(name: string, s: Service): Reading<int> {
    match RawAnnotation(name, s)
    case Missing => Missing
    case Failed => Failed
    case Found(v) => match Atoi(v) case Some(i) => Found(i) case None => Failed
  }

  /** `strconv.ParseBool`. */
  function ParseBool(v: string): Option<bool> {
    if v in ["1", "t", "T", "TRUE", "true", "True"] then Some(true)
    else if v in ["0", "f", "F", "FALSE", "false", "False"] then Some(false)
    else None
  }

  /** First result of `GetOptionalStringAnnotation`: a missing annotation reads as empty. */
  function OptionalString(name: string, s: Service): string {
    match RawAnnotation(name, s) case Found(v) => v case _ => ""
  }

  /** First result of `GetOptionalBoolAnnotation`. */
  function OptionalBool(name: string, s: Service): bool {
    match RawAnnotation(name, s)
    case Found(v) => (match ParseBool(v) case Some(b) => b case None => false)
    case _ => false
  }

  /** `IsValid`: the service asks for this load balancer. */
  predicate SelectsLbex(s: Service) { OptionalString(CLASS_KEY, s) == CLASS_VALUE }
}
