/** The client's get-by-key operations, seen from the response they receive, and the query
    parameters it sends to update a user's quality-of-service limits. */
module Client {
  import opened Wrappers
  import opened Errors
  import opened Decimal
  import opened Translate

  const StatusOK := 200
  const StatusNoContent := 204

  /** One gibibyte, the `GB` constant quotas are written with. */
  const GB: nat := 1024 * 1024 * 1024

  datatype User = User(groupId: string, userId: string)

  /** The error a get-by-key response status gives: none for 200 OK, `NotFound` for
      204 No Content (the API's way of saying the key does not exist), and an unclassified
      status error for anything else. */
  function GetStatusError(status: int): (r: Option<Error>)
    ensures r.None? <==> status == StatusOK
    ensures r.Some? ==> (Is(r.value, NotFound) <==> status == StatusNoContent)
  {
    if status == StatusOK then None
    else if status == StatusNoContent then Some(NotFound)
    else Some(Status(status))
  }

  /** `GetGroup`, given the response status and the wire group the body decodes to. */
  function GetGroup(status: int, body: GroupWire): (r: Result<Group, Error>)
    ensures r.Failure? && Is(r.error, NotFound) <==> status == StatusNoContent
    ensures r.Success? <==> status == StatusOK && FromInternal(body).Success?
    ensures r.Success? ==> ToInternal(r.value) == body
  {
    match GetStatusError(status)
    case Some(e) => Failure(e)
    case None => FromInternal(body)
  }

  /** `GetUser`, given the response status and the user the body decodes to. */
  function GetUser(status: int, body: User): (r: Result<User, Error>)
    ensures r.Failure? && Is(r.error, NotFound) <==> status == StatusNoContent
    ensures r.Success? <==> status == StatusOK
    ensures r.Success? ==> r.value == body
  {
    match GetStatusError(status)
    case Some(e) => Failure(e)
    case None => Success(body)
  }

  /** A server answering with the wire form of a group gives that group back to `GetGroup`. */
  lemma GetGroupReturnsServedGroup(g: Group)
    ensures GetGroup(StatusOK, ToInternal(g)) == Success(g)
  {
    RoundTrip(g);
  }

  /** The limits of one user; the storage quota and the data rates are in bytes. */
  datatype QoS = QoS(
    storageQuota: nat,
    storageQuotaCount: nat,
    requestRate: nat,
    dataRateInbound: nat,
    dataRateOutbound: nat)

  /** The warning level that goes with a hard level: 75% of it, rounded down. */
  function Warning(hard: nat): nat {
    hard * 3 / 4
  }

  function KBytes(bytes: nat): nat {
    bytes / 1024
  }

  /** The twelve parameters of a QoS update request. */
  const QosKeys: set<string> := {
    "userId", "groupId",
    "hlStorageQuotaKBytes", "wlStorageQuotaKBytes",
    "hlStorageQuotaCount", "wlStorageQuotaCount",
    "hlRequestRate", "wlRequestRate",
    "hlDataKBytesIn", "wlDataKBytesIn",
    "hlDataKBytesOut", "wlDataKBytesOut"
  }

  /** The hard-level parameters and the warning-level parameter paired with each. */
  const HardWarningPairs: seq<(string, string)> := [
    ("hlStorageQuotaKBytes", "wlStorageQuotaKBytes"),
    ("hlStorageQuotaCount", "wlStorageQuotaCount"),
    ("hlRequestRate", "wlRequestRate"),
    ("hlDataKBytesIn", "wlDataKBytesIn"),
    ("hlDataKBytesOut", "wlDataKBytesOut")
  ]

  /** `qosQueryMap`: the query parameters of a QoS update for `user`. */
  function QosQueryMap(user: User, qos: QoS): (m: map<string, string>)
    ensures m.Keys == QosKeys
    ensures m["userId"] == user.userId && m["groupId"] == user.groupId
  {
    var storage := KBytes(qos.storageQuota);
    var inbound := KBytes(qos.dataRateInbound);
    var outbound := KBytes(qos.dataRateOutbound);
    map[
      "userId" := user.userId,
      "groupId" := user.groupId,
      "hlStorageQuotaKBytes" := Format(storage),
      "wlStorageQuotaKBytes" := Format(Warning(storage)),
      "hlStorageQuotaCount" := Format(qos.storageQuotaCount),
      "wlStorageQuotaCount" := Format(Warning(qos.storageQuotaCount)),
      "hlRequestRate" := Format(qos.requestRate),
      "wlRequestRate" := Format(Warning(qos.requestRate)),
      "hlDataKBytesIn" := Format(inbound),
      "wlDataKBytesIn" := Format(Warning(inbound)),
      "hlDataKBytesOut" := Format(outbound),
      "wlDataKBytesOut" := Format(Warning(outbound))
    ]
  }

  /** Read back, every hard level is the quota it stands for, with byte quantities in whole
      kilobytes. */
  lemma QosHardLevels(user: User, qos: QoS)
    ensures var m := QosQueryMap(user, qos);
      (forall k :: k in m.Keys - {"userId", "groupId"} ==> AllDigits(m[k])) &&
      Parse(m["hlStorageQuotaKBytes"]) * 1024 <= qos.storageQuota < (Parse(m["hlStorageQuotaKBytes"]) + 1) * 1024 &&
      Parse(m["hlStorageQuotaCount"]) == qos.storageQuotaCount &&
      Parse(m["hlRequestRate"]) == qos.requestRate &&
      Parse(m["hlDataKBytesIn"]) * 1024 <= qos.dataRateInbound < (Parse(m["hlDataKBytesIn"]) + 1) * 1024 &&
      Parse(m["hlDataKBytesOut"]) * 1024 <= qos.dataRateOutbound < (Parse(m["hlDataKBytesOut"]) + 1) * 1024
  {
    ParseFormat(KBytes(qos.storageQuota));
    ParseFormat(qos.storageQuotaCount);
    ParseFormat(qos.requestRate);
    ParseFormat(KBytes(qos.dataRateInbound));
    ParseFormat(KBytes(qos.dataRateOutbound));
  }

  /** Read back, a rendered warning level is 75% of its rendered hard level, rounded down. */
  lemma WarningReadBack(hard: nat)
    ensures 4 * Parse(Format(Warning(hard))) <= 3 * Parse(Format(hard)) < 4 * Parse(Format(Warning(hard))) + 4
  {
    ParseFormat(hard);
    ParseFormat(Warning(hard));
  }

  /** Every warning-level parameter is 75% of its hard-level parameter in the same unit,
      rounded down. */
  lemma QosWarningLevels(user: User, qos: QoS, i: nat)
    requires i < |HardWarningPairs|
    ensures var m := QosQueryMap(user, qos);
      var (hl, wl) := HardWarningPairs[i];
      AllDigits(m[hl]) && AllDigits(m[wl]) &&
      4 * Parse(m[wl]) <= 3 * Parse(m[hl]) < 4 * Parse(m[wl]) + 4
  {
    var hard := [KBytes(qos.storageQuota), qos.storageQuotaCount, qos.requestRate,
                 KBytes(qos.dataRateInbound), KBytes(qos.dataRateOutbound)];
    var m := QosQueryMap(user, qos);
    var (hl, wl) := HardWarningPairs[i];
    assert m[hl] == Format(hard[i]) && m[wl] == Format(Warning(hard[i]));
    WarningReadBack(hard[i]);
  }

  /** The update for user "1" of group "1" with a 1 GB storage quota, 1000 objects, 200
      requests and 1 GB inbound and outbound data rates. */
  lemma QosQueryMapExample()
    ensures QosQueryMap(User("1", "1"), QoS(GB, 1000, 200, GB, GB)) == map[
      "userId" := "1",
      "groupId" := "1",
      "hlStorageQuotaKBytes" := "1048576",
      "wlStorageQuotaKBytes" := "786432",
      "hlStorageQuotaCount" := "1000",
      "wlStorageQuotaCount" := "750",
      "hlRequestRate" := "200",
      "wlRequestRate" := "150",
      "hlDataKBytesIn" := "1048576",
      "wlDataKBytesIn" := "786432",
      "hlDataKBytesOut" := "1048576",
      "wlDataKBytesOut" := "786432"
    ]
  {
    ExampleRenderings();
  }

  lemma ExampleRenderings()
    ensures Format(KBytes(GB)) == "1048576" && Format(Warning(KBytes(GB))) == "786432"
    ensures Format(1000) == "1000" && Format(Warning(1000)) == "750"
    ensures Format(200) == "200" && Format(Warning(200)) == "150"
  {
    assert KBytes(GB) == 1048576 && Warning(1048576) == 786432;
    assert Warning(1000) == 750 && Warning(200) == 150;
  }
}
