/** The constants of src/shared/api/constants.ts that the core uses. */
module ApiConstants {

  /** Prefix of every REST path. */
  const API_BASE_PATH: string := "/api/v1"

  /** Page size used when no initial limit is given. */
  const DEFAULT_PAGE_SIZE: int := 25

  /** Largest page size `updateLimit` accepts. */
  const MAX_PAGE_SIZE: int := 100

  /** The resources metrics are served for (`METRIC_RESOURCES`). */
  datatype MetricResource = Nodes | Pods | Containers | Namespaces | Deployments | Cluster {

    /** The resource's name as it appears in requests and cache keys. */
    function Name(): (r: string)
      ensures |r| > 0 && forall i :: 0 <= i < |r| ==> 'a' <= r[i] <= 'z'
    {
      match this
      case Nodes => "nodes"
      case Pods => "pods"
      case Containers => "containers"
      case Namespaces => "namespaces"
      case Deployments => "deployments"
      case Cluster => "cluster"
    }
  }
}
