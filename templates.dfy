/** generatePolicy (cmd/add.go:204-524): the two predefined policy templates,
    "read-only" and "write-everything". Each is three `allow` policies: one
    on every account, one on every zone and one on the current user, each
    granting a fixed list of permission groups. */
module Templates {
  import opened Wrappers
  import opened GoStrings
  import opened HexIds
  import opened PermissionTables
  import opened Config

  const Allow: string := "allow"
  const AccountResource: string := "com.cloudflare.api.account.*"
  const ZoneResource: string := "com.cloudflare.api.account.zone.*"
  const UserResourcePrefix: string := "com.cloudflare.api.user."

  /** The permission groups for a list of IDs, in the same order; the source
      gives no group a name. */
  function Groups(ids: seq<nat>): (gs: seq<PermissionGroup>)
    ensures |gs| == |ids|
    ensures forall k :: 0 <= k < |ids| ==> gs[k].id == HexId(ids[k]) && gs[k].name == ""
  {
    seq(|ids|, k requires 0 <= k < |ids| => PermissionGroup(HexId(ids[k]), ""))
  }

  /** An `allow` policy granting `ids` on the single resource `resource`. */
  function AllowPolicy(ids: seq<nat>, resource: string): (p: Policy)
  {
    Policy(Allow, "", Groups(ids), map[resource := "*"])
  }

  const ReadOnlyName: string := "read-only"
  const WriteEverythingName: string := "write-everything"

  /** The error for an unknown template name, with the name quoted as `%q`
      quotes it. */
  function UnknownTemplateError(policyType: string): (message: string)
  {
    "unable to generate policy for " + Quote(policyType)
      + ", valid policy names: [read-only, write-everything]"
  }

  /** generatePolicy: exactly the two template names (compared exactly, case
      included) give three `allow` policies on the account wildcard, the zone
      wildcard and the user, each resource mapped to "*"; any other name is
      an error naming the two valid ones. */
  function GeneratePolicy(policyType: string, userID: string): (r: Result<seq<Policy>, string>)
    ensures r.Success? <==> policyType == ReadOnlyName || policyType == WriteEverythingName
    ensures r.Success? ==>
              |r.value| == 3
              && (forall i :: 0 <= i < 3 ==> r.value[i].effect == Allow && r.value[i].id == "")
              && r.value[0].resources == map[AccountResource := "*"]
              && r.value[1].resources == map[ZoneResource := "*"]
              && r.value[2].resources == map[UserResourcePrefix + userID := "*"]
    // which permission groups each template grants, resource by resource
    ensures policyType == ReadOnlyName ==>
              r.value[0].permissionGroups == Groups(Ids(ReadOnlyAccount))
              && r.value[1].permissionGroups == Groups(Ids(ReadOnlyZone))
              && r.value[2].permissionGroups == Groups(Ids(ReadOnlyUser))
    ensures policyType == WriteEverythingName ==>
              r.value[0].permissionGroups == Groups(Ids(WriteEverythingAccount))
              && r.value[1].permissionGroups == Groups(Ids(WriteEverythingZone))
              && r.value[2].permissionGroups == Groups(Ids(WriteEverythingUser))
    ensures r.Failure? ==> r.error == UnknownTemplateError(policyType)
  {
    match policyType
    // writeEverythingPolicy (cmd/add.go:355-512)
    case "write-everything" =>
      Success([AllowPolicy(Ids(WriteEverythingAccount), AccountResource),
               AllowPolicy(Ids(WriteEverythingZone), ZoneResource),
               AllowPolicy(Ids(WriteEverythingUser), UserResourcePrefix + userID)])
    // readOnlyPolicy (cmd/add.go:205-353)
    case "read-only" =>
      Success([AllowPolicy(Ids(ReadOnlyAccount), AccountResource),
               AllowPolicy(Ids(ReadOnlyZone), ZoneResource),
               AllowPolicy(Ids(ReadOnlyUser), UserResourcePrefix + userID)])
    case _ => Failure(UnknownTemplateError(policyType))
  }

  /** The user ID shows up only in the third policy's resource: every other
      part of the result is the same whoever the user is. */
  lemma UserIdOnlyInUserResource(policyType: string, userID: string, otherID: string)
    requires GeneratePolicy(policyType, userID).Success?
    ensures GeneratePolicy(policyType, otherID).Success?
    ensures var ps, qs := GeneratePolicy(policyType, userID).value, GeneratePolicy(policyType, otherID).value;
            ps[0] == qs[0] && ps[1] == qs[1]
            && ps[2] == qs[2].(resources := ps[2].resources)
  {
  }

  /** IDs strictly ascending in Go's string order. */
  predicate IdsAscending(gs: seq<PermissionGroup>)
  {
    forall p, q :: 0 <= p < q < |gs| ==> LexLess(gs[p].id, gs[q].id)
  }

  /** No two groups with the same ID. */
  predicate IdsDistinct(gs: seq<PermissionGroup>)
  {
    forall p, q :: 0 <= p < |gs| && 0 <= q < |gs| && p != q ==> gs[p].id != gs[q].id
  }

  /** Every ID is 32 lower-case hexadecimal digits. */
  predicate IdsWellFormed(gs: seq<PermissionGroup>)
  {
    forall p :: 0 <= p < |gs| ==>
      |gs[p].id| == IdWidth
      && forall k :: 0 <= k < |gs[p].id| ==> '0' <= gs[p].id[k] <= '9' || 'a' <= gs[p].id[k] <= 'f'
  }

  lemma {:induction false} GroupsOrdered(ids: seq<nat>)
    requires WellFormed(ids)
    ensures IdsAscending(Groups(ids)) && IdsDistinct(Groups(ids)) && IdsWellFormed(Groups(ids))
  {
    var gs := Groups(ids);
    forall p, q | 0 <= p < q < |gs|
      ensures LexLess(gs[p].id, gs[q].id) && gs[p].id != gs[q].id && gs[q].id != gs[p].id
    {
      HexIdOrder(ids[p], ids[q]);
    }
    forall p | 0 <= p < |gs|
      ensures forall k :: 0 <= k < |gs[p].id| ==> '0' <= gs[p].id[k] <= '9' || 'a' <= gs[p].id[k] <= 'f'
    {
      assert gs[p].id == Hex(ids[p], IdWidth);
    }
  }

  lemma {:induction false} GroupsApart(xs: seq<nat>, ys: seq<nat>)
    requires WellFormed(xs) && WellFormed(ys) && ShareNothing(xs, ys)
    ensures forall p, q :: 0 <= p < |xs| && 0 <= q < |ys| ==> Groups(xs)[p].id != Groups(ys)[q].id
  {
    forall p, q | 0 <= p < |xs| && 0 <= q < |ys|
      ensures Groups(xs)[p].id != Groups(ys)[q].id
    {
      HexIdOrder(xs[p], ys[q]);
    }
  }

  /** Within every generated policy the permission-group IDs are 32-digit
      lower-case hexadecimal strings, strictly ascending and so pairwise
      distinct. */
  lemma GeneratedIdsOrdered(policyType: string, userID: string, i: nat)
    requires GeneratePolicy(policyType, userID).Success? && i < 3
    ensures var gs := GeneratePolicy(policyType, userID).value[i].permissionGroups;
            IdsAscending(gs) && IdsDistinct(gs) && IdsWellFormed(gs)
  {
    if policyType == ReadOnlyName {
      ReadOnlyWellFormed();
      GroupsOrdered(Ids(ReadOnlyAccount));
      GroupsOrdered(Ids(ReadOnlyZone));
      GroupsOrdered(Ids(ReadOnlyUser));
    } else {
      WriteEverythingWellFormed();
      GroupsOrdered(Ids(WriteEverythingAccount));
      GroupsOrdered(Ids(WriteEverythingZone));
      GroupsOrdered(Ids(WriteEverythingUser));
    }
  }

  /** For the same resource, the read-only and the write-everything
      templates grant no permission group in common. */
  lemma TemplatesShareNoGroup(userID: string, i: nat)
    requires i < 3
    ensures var ro := GeneratePolicy(ReadOnlyName, userID).value[i].permissionGroups;
            var we := GeneratePolicy(WriteEverythingName, userID).value[i].permissionGroups;
            forall p, q :: 0 <= p < |ro| && 0 <= q < |we| ==> ro[p].id != we[q].id
  {
    ReadOnlyWellFormed();
    WriteEverythingWellFormed();
    ReadOnlyApartFromWriteEverything();
    GroupsApart(Ids(ReadOnlyAccount), Ids(WriteEverythingAccount));
    GroupsApart(Ids(ReadOnlyZone), Ids(WriteEverythingZone));
    GroupsApart(Ids(ReadOnlyUser), Ids(WriteEverythingUser));
  }
}
