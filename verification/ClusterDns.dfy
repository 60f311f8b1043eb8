/** How the cluster reads the host name of a Service. */
module ClusterDns {
  import opened ApiServer

  /** Where the first label of a host name ends. */
  function LabelEnd(host: string): (n: nat)
    ensures n <= |host|
    ensures '.' !in host[..n]
    ensures n < |host| ==> host[n] == '.'
  {
    if host == "" || host[0] == '.' then 0
    else 1 + LabelEnd(host[1..])
  }

  /** The Service and the namespace that a host name stands for: the first label, and what lies
      between it and the domain of the cluster. */
  function ServiceOf(host: string): Option<(string, string)> {
    var n := LabelEnd(host);
    var rest := host[n..];
    var end := |rest| - |".svc.cluster.local"|;
    if end < 1 || rest[end..] != ".svc.cluster.local" then None
    else Some((host[..n], rest[1..end]))
  }

  /** A name without dots ends at the first dot. */
  lemma LabelEnds(first: string, rest: string)
    requires '.' !in first && rest != "" && rest[0] == '.'
    ensures LabelEnd(first + rest) == |first|
  {
    assert (first + rest)[|first|] == '.';
    assert forall i :: 0 <= i < |first| ==> (first + rest)[i] == first[i];
  }

  /** No host name stands for two Services, and every Service whose name has no dot has one. */
  lemma ServiceRead(host: string, service: string, namespace: string)
    ensures ServiceOf(host) == Some((service, namespace))
            <==> '.' !in service && host == service + "." + namespace + ".svc.cluster.local"
  {
    var domain := ".svc.cluster.local";
    if '.' !in service && host == service + "." + namespace + domain {
      var rest := "." + namespace + domain;
      assert host == service + rest;
      LabelEnds(service, rest);
      assert rest[1..][..|namespace|] == namespace;
    }
    if ServiceOf(host) == Some((service, namespace)) {
      var n := LabelEnd(host);
      var rest := host[n..];
      assert rest == "." + namespace + domain;
      assert host == host[..n] + rest;
    }
  }
}
