/**
 The inventory's vocabulary: asset types, relation types, and what exists only as part of
 something else.
 */
module Assets {
  import opened Prelude

  type Time = int

  datatype AssetType =
    | RootDomain | Domain | Subdomain | IpAddress | Cidr | Asn | DnsRecord | Certificate
    | Port | Service | HttpEndpoint | WebApplication | Technology | CloudResource

  datatype RelationType =
    | ResolvesTo | Cname | NsRecord | MxRecord | Ptr | SubdomainOf | Contains | Announces | BelongsToAsn | HasPort
    | RunsService | Serves | HostedOn | UsesTechnology | PresentsCertificate | CertificateFor | HostedBy | RedirectsTo | RelatedTo

  /** An asset is identified, within an organization, by its type and its normalized value. */
  datatype Key = Key(kind: AssetType, value: string)

  predicate IsHostname(t: AssetType) {
    t.RootDomain? || t.Domain? || t.Subdomain?
  }

  /** The relation under which a child of one type exists only as part of a parent of the other, if any. */
  function Ownership(parent: AssetType, child: AssetType): Option<RelationType> {
    if child.HttpEndpoint? && (IsHostname(parent) || parent.IpAddress?) then Some(Serves)
    else if child.Port? && parent.IpAddress? then Some(HasPort)
    else if child.Service? && parent.Port? then Some(RunsService)
    else None
  }

  /** The types a parent owns, in the order they are visited. */
  function OwnedChildren(parent: AssetType): (r: seq<(RelationType, AssetType)>)
    ensures forall kind, child :: (kind, child) in r <==> Ownership(parent, child) == Some(kind)
  {
    if IsHostname(parent) then [(Serves, HttpEndpoint)]
    else if parent.IpAddress? then [(HasPort, Port), (Serves, HttpEndpoint)]
    else if parent.Port? then [(RunsService, Service)]
    else []
  }

  /** Ownership goes down this rank. */
  function Rank(t: AssetType): nat {
    if IsHostname(t) || t.IpAddress? then 2 else if t.Port? then 1 else 0
  }

  predicate CountsMisses(t: AssetType) {
    t.Port? || t.Service? || t.HttpEndpoint?
  }
}
