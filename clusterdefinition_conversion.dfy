/**
 * Conversion of a ClusterDefinition between the apps/v1alpha1 API version
 * and the hub version apps/v1: only the object metadata is carried over.
 */
module ClusterDefinitionConversion {
  import opened Wrappers

  /** The Kubernetes object metadata the two versions share. */
  datatype ObjectMeta = ObjectMeta(
    name: string,
    namespace: string,
    uid: string,
    resourceVersion: string,
    generation: int,
    labels: map<string, string>,
    annotations: map<string, string>,
    finalizers: seq<string>)

  /** The parts of the two versions' specifications and statuses, kept opaque to the conversion. */
  datatype HubSpec = HubSpec(topologies: seq<string>)
  datatype HubStatus = HubStatus(observedGeneration: int, phase: string, message: string)
  datatype LegacySpec = LegacySpec(componentDefs: seq<string>, connectionCredential: map<string, string>)
  datatype LegacyStatus = LegacyStatus(observedGeneration: int, phase: string, message: string)

  /** A ClusterDefinition of the hub version apps/v1. */
  class HubClusterDefinition {
    var objectMeta: ObjectMeta
    var spec: HubSpec
    var status: HubStatus

    constructor (objectMeta: ObjectMeta, spec: HubSpec, status: HubStatus)
      ensures this.objectMeta == objectMeta && this.spec == spec && this.status == status
    {
      this.objectMeta := objectMeta;
      this.spec := spec;
      this.status := status;
    }
  }

  /** A ClusterDefinition of apps/v1alpha1. */
  class ClusterDefinition {
    var objectMeta: ObjectMeta
    var spec: LegacySpec
    var status: LegacyStatus

    constructor (objectMeta: ObjectMeta, spec: LegacySpec, status: LegacyStatus)
      ensures this.objectMeta == objectMeta && this.spec == spec && this.status == status
    {
      this.objectMeta := objectMeta;
      this.spec := spec;
      this.status := status;
    }

    /** ConvertTo: copy this object's metadata into the hub object; its spec and status stay as they were. */
    method ConvertTo(dst: HubClusterDefinition) returns (err: Option<string>)
      modifies dst
      ensures err.None?
      ensures dst.objectMeta == objectMeta
      ensures dst.spec == old(dst.spec) && dst.status == old(dst.status)
    {
      dst.objectMeta := objectMeta;
      return None;
    }

    /** ConvertFrom: take the hub object's metadata; this object's spec and status stay as they were. */
    method ConvertFrom(src: HubClusterDefinition) returns (err: Option<string>)
      modifies this
      ensures err.None?
      ensures objectMeta == src.objectMeta
      ensures spec == old(spec) && status == old(status)
    {
      objectMeta := src.objectMeta;
      return None;
    }
  }

  /**
   * Converting to the hub version and back leaves the object as it was, and
   * the hub object ends up with the same metadata.
   */
  method RoundTrip(cd: ClusterDefinition, hub: HubClusterDefinition)
    modifies cd, hub
    ensures cd.objectMeta == old(cd.objectMeta) && cd.spec == old(cd.spec) && cd.status == old(cd.status)
    ensures hub.objectMeta == old(cd.objectMeta)
    ensures hub.spec == old(hub.spec) && hub.status == old(hub.status)
  {
    var e1 := cd.ConvertTo(hub);
    var e2 := cd.ConvertFrom(hub);
  }
}
