/** The container-port search shared by the generic job controller and both
    XGBoost controllers: scan the containers in order, and inside each one
    with the wanted container name scan its ports in order; the first port
    with the wanted port name wins. */
module Ports {
  import opened Common
  import opened Api

  /** Port j of container i is a candidate: the container and the port
      carry the wanted names. */
  predicate PortAt(containers: seq<Container>, cname: string, pname: string, i: int, j: int)
  {
    0 <= i < |containers| && containers[i].name == cname &&
    0 <= j < |containers[i].ports| && containers[i].ports[j].name == pname
  }

  /** No container named cname has a port named pname. */
  ghost predicate NoPort(containers: seq<Container>, cname: string, pname: string)
  {
    forall i, j :: !PortAt(containers, cname, pname, i, j)
  }

  /** v is the port of the first candidate, in container order and then in
      port order. */
  ghost predicate IsFirstPort(containers: seq<Container>, cname: string, pname: string, v: int)
  {
    exists i, j :: PortAt(containers, cname, pname, i, j) && v == containers[i].ports[j].containerPort &&
                   forall i', j' :: PortAt(containers, cname, pname, i', j') ==> i < i' || (i == i' && j <= j')
  }

  /** The first port named pname in a list of ports. */
  function PortIn(ports: seq<ContainerPort>, pname: string): (r: Option<int>)
    decreases |ports|
  {
    if ports == [] then None
    else if ports[0].name == pname then Some(ports[0].containerPort)
    else PortIn(ports[1..], pname)
  }

  /** The first candidate port, containers first, then ports. */
  function FindPort(containers: seq<Container>, cname: string, pname: string): (r: Option<int>)
    decreases |containers|
  {
    if containers == [] then None
    else if containers[0].name == cname && PortIn(containers[0].ports, pname).Some? then
      PortIn(containers[0].ports, pname)
    else FindPort(containers[1..], cname, pname)
  }

  lemma {:induction false} PortInFirst(ports: seq<ContainerPort>, pname: string)
    ensures PortIn(ports, pname).None? <==> forall j :: 0 <= j < |ports| ==> ports[j].name != pname
    ensures PortIn(ports, pname).Some? ==>
              exists j :: 0 <= j < |ports| && ports[j].name == pname &&
                          PortIn(ports, pname).value == ports[j].containerPort &&
                          forall j' :: 0 <= j' < j ==> ports[j'].name != pname
    decreases |ports|
  {
    if ports != [] && ports[0].name != pname {
      var rest := ports[1..];
      PortInFirst(rest, pname);
      assert forall j :: 1 <= j < |ports| ==> ports[j] == rest[j - 1];
      if PortIn(rest, pname).Some? {
        var j :| 0 <= j < |rest| && rest[j].name == pname &&
                 PortIn(rest, pname).value == rest[j].containerPort &&
                 forall j' :: 0 <= j' < j ==> rest[j'].name != pname;
        assert ports[j + 1] == rest[j];
        assert forall j' :: 0 <= j' < j + 1 ==> ports[j'].name != pname by {
          forall j' | 0 <= j' < j + 1 ensures ports[j'].name != pname {
            if j' > 0 {
              assert ports[j'] == rest[j' - 1];
            }
          }
        }
      }
    } else if ports != [] {
      assert ports[0].name == pname;
    }
  }

  /** The search finds a port iff some container named cname has a port
      named pname, and then it is the port of the first such pair in
      container order, then port order. */
  lemma {:induction false} FindPortFirst(containers: seq<Container>, cname: string, pname: string)
    ensures FindPort(containers, cname, pname).None? <==> NoPort(containers, cname, pname)
    ensures FindPort(containers, cname, pname).Some? ==>
              IsFirstPort(containers, cname, pname, FindPort(containers, cname, pname).value)
    decreases |containers|
  {
    if containers == [] {
      return;
    }
    var r := FindPort(containers, cname, pname);
    var c := containers[0];
    var rest := containers[1..];
    PortInFirst(c.ports, pname);
    if c.name == cname && PortIn(c.ports, pname).Some? {
      var j :| 0 <= j < |c.ports| && c.ports[j].name == pname &&
               PortIn(c.ports, pname).value == c.ports[j].containerPort &&
               forall j' :: 0 <= j' < j ==> c.ports[j'].name != pname;
      assert PortAt(containers, cname, pname, 0, j);
    } else {
      FindPortFirst(rest, cname, pname);
      assert forall i, j :: PortAt(containers, cname, pname, i + 1, j) <==> PortAt(rest, cname, pname, i, j);
      assert forall j :: !PortAt(containers, cname, pname, 0, j);
      if r.None? {
        forall i, j ensures !PortAt(containers, cname, pname, i, j) {
          if i > 0 {
            assert !PortAt(rest, cname, pname, i - 1, j);
          }
        }
      } else {
        var i, j :| PortAt(rest, cname, pname, i, j) &&
                    r.value == rest[i].ports[j].containerPort &&
                    forall i', j' :: PortAt(rest, cname, pname, i', j') ==> i < i' || (i == i' && j <= j');
        assert PortAt(containers, cname, pname, i + 1, j);
        forall i', j' | PortAt(containers, cname, pname, i', j')
          ensures i + 1 < i' || (i + 1 == i' && j <= j')
        {
          assert i' > 0;
          assert PortAt(rest, cname, pname, i' - 1, j');
        }
      }
    }
  }
}
