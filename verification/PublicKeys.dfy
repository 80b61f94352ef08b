/**
 * How a passkey's public key is stored: encoding/json text around base64, once for a key added to an
 * existing account and twice for a key parked in registration_requests.credential_data until approval.
 */
module PublicKeys {
  import opened Basics
  import opened Text
  import Base64

  type Uint32 = n: int | 0 <= n < 0x1_0000_0000

  /** What the authenticator hands over when a passkey is created. */
  datatype Credential = Credential(
    id: seq<Byte>,
    publicKey: seq<Byte>,
    aaguid: seq<Byte>,
    signCount: Uint32,
    backupEligible: bool,
    backupState: bool)

  // ------------------------------------------------------------ JSON of []byte

  function MarshalBytes(b: seq<Byte>): string {
    "\"" + Base64.Encode(b) + "\""
  }

  function UnmarshalBytes(s: string): Option<seq<Byte>> {
    if |s| >= 2 && s[0] == '\"' && s[|s| - 1] == '\"' then Base64.Decode(s[1..|s| - 1]) else None
  }

  lemma UnmarshalMarshalBytes(b: seq<Byte>)
    ensures UnmarshalBytes(MarshalBytes(b)) == Some(b)
  {
    var s := MarshalBytes(b);
    assert s[1..|s| - 1] == Base64.Encode(b);
    Base64.DecodeEncode(b);
  }

  predicate PlainChar(c: char) {
    c != ',' && c != ':' && c as int < 128
  }

  predicate Plain(s: string) {
    forall i :: 0 <= i < |s| ==> PlainChar(s[i])
  }

  lemma MarshalBytesPlain(b: seq<Byte>)
    ensures Plain(MarshalBytes(b))
  {
    var body, pad := Base64.Symbols(Base64.Sextets(b)), Base64.Padding(|b|);
    assert Plain(body) by {
      forall i | 0 <= i < |body| ensures PlainChar(body[i]) {
        assert Base64.IsSymbol(body[i]);
      }
    }
    assert Plain(pad) && MarshalBytes(b) == "\"" + (body + pad) + "\"";
  }

  // ---------------------------------------------------- the public_key column

  function Code(c: char): Byte
    requires c as int < 128
  {
    c as int
  }

  function ToBytes(s: string): (b: seq<Byte>)
    requires Plain(s)
  {
    seq(|s|, i requires 0 <= i < |s| => Code(s[i]))
  }

  function FromBytes(b: seq<Byte>): (s: string) {
    seq(|b|, i requires 0 <= i < |b| => b[i] as int as char)
  }

  lemma FromToBytes(s: string)
    requires Plain(s)
    ensures FromBytes(ToBytes(s)) == s
  {
    assert forall i :: 0 <= i < |s| ==> ToBytes(s)[i] == s[i] as int;
  }

  /** json.Marshal(credential.PublicKey) */
  function KeyColumn(key: seq<Byte>): seq<Byte> {
    MarshalBytesPlain(key);
    ToBytes(MarshalBytes(key))
  }

  /** json.Unmarshal(pubKeyJSON, &pubKey), the error ignored: on failure the key is left empty. */
  function LoadKey(column: seq<Byte>): seq<Byte> {
    match UnmarshalBytes(FromBytes(column))
    case Some(key) => key
    case None => []
  }

  /** Added from settings or by a reset: one layer on, one layer off. */
  lemma LoadKeyColumn(key: seq<Byte>)
    ensures LoadKey(KeyColumn(key)) == key
  {
    MarshalBytesPlain(key);
    FromToBytes(MarshalBytes(key));
    UnmarshalMarshalBytes(key);
  }

  // ------------------------------------------------------ flat JSON documents

  function Join(items: seq<string>): string {
    if items == [] then ""
    else if |items| == 1 then items[0]
    else items[0] + [','] + Join(items[1..])
  }

  function SplitAll(s: string): seq<string>
    decreases |s|
  {
    SplitFirstSound(s, ',');
    match SplitFirst(s, ',')
    case None => [s]
    case Some((a, b)) => [a] + SplitAll(b)
  }

  lemma {:induction false} SplitAllJoin(items: seq<string>)
    requires items != [] && forall i :: 0 <= i < |items| ==> ',' !in items[i]
    ensures SplitAll(Join(items)) == items
  {
    if |items| == 1 {
      SplitFirstSound(items[0], ',');
    } else {
      SplitFirstAt(items[0], ',', Join(items[1..]));
      SplitAllJoin(items[1..]);
    }
  }

  /** A member name (quotes included) and the text of its value. */
  type Member = (string, string)

  function Items(ms: seq<Member>): (r: seq<string>)
    ensures |r| == |ms| && forall i :: 0 <= i < |ms| ==> r[i] == ms[i].0 + [':'] + ms[i].1
  {
    seq(|ms|, i requires 0 <= i < |ms| => ms[i].0 + [':'] + ms[i].1)
  }

  /** The value of the last member with this name. */
  function Find(items: seq<string>, name: string): Option<string> {
    if items == [] then None
    else
      match SplitFirst(items[|items| - 1], ':')
      case None => Find(items[..|items| - 1], name)
      case Some((n, v)) => if n == name then Some(v) else Find(items[..|items| - 1], name)
  }

  lemma {:induction false} FindMember(ms: seq<Member>, k: nat)
    requires k < |ms|
    requires forall i :: 0 <= i < |ms| ==> ':' !in ms[i].0
    requires forall i, j :: 0 <= i < j < |ms| ==> ms[i].0 != ms[j].0
    ensures Find(Items(ms), ms[k].0) == Some(ms[k].1)
  {
    var n := |ms| - 1;
    SplitFirstAt(ms[n].0, ':', ms[n].1);
    if k < n {
      assert Items(ms)[..n] == Items(ms[..n]);
      FindMember(ms[..n], k);
    }
  }

  // ------------------------------------------------------- storedCredential

  function BoolText(b: bool): string {
    if b then "true" else "false"
  }

  function MemberName(k: nat): string
    requires k < 6
  {
    match k
    case 0 => "\"id\""
    case 1 => "\"public_key\""
    case 2 => "\"aaguid\""
    case 3 => "\"sign_count\""
    case 4 => "\"backup_eligible\""
    case _ => "\"backup_state\""
  }

  function MemberText(c: Credential, k: nat): string
    requires k < 6
  {
    match k
    case 0 => MarshalBytes(c.id)
    case 1 => MarshalBytes(KeyColumn(c.publicKey))
    case 2 => MarshalBytes(c.aaguid)
    case 3 => Decimal(c.signCount)
    case 4 => BoolText(c.backupEligible)
    case _ => BoolText(c.backupState)
  }

  function Members(c: Credential): (ms: seq<Member>)
    ensures |ms| == 6 && forall k :: 0 <= k < 6 ==> ms[k] == (MemberName(k), MemberText(c, k))
  {
    seq(6, k requires 0 <= k < 6 => (MemberName(k), MemberText(c, k)))
  }

  /** The credential_data text finishRegisterPasskey parks. */
  function Park(c: Credential): string {
    "{" + Join(Items(Members(c))) + "}"
  }

  /** storedCredential: PublicKey still carries its own JSON layer. */
  datatype Stored = Stored(
    id: seq<Byte>,
    publicKey: seq<Byte>,
    aaguid: seq<Byte>,
    signCount: Uint32,
    backupEligible: bool,
    backupState: bool)

  function ReadBytes(v: Option<string>): Option<seq<Byte>> {
    match v
    case None => Some([])
    case Some(text) => UnmarshalBytes(text)
  }

  function ReadCount(v: Option<string>): Option<Uint32> {
    match v
    case None => Some(0)
    case Some(text) =>
      match Number(text)
      case Some(n) => if text != [] && n < 0x1_0000_0000 then Some(n) else None
      case None => None
  }

  function ReadBool(v: Option<string>): Option<bool> {
    match v
    case None => Some(false)
    case Some(text) => if text == "true" then Some(true) else if text == "false" then Some(false) else None
  }

  /** json.Unmarshal(credJSON, &storedCredential); None is "corrupt credential data". */
  function Unpark(s: string): Option<Stored> {
    if |s| < 2 || s[0] != '{' || s[|s| - 1] != '}' then None
    else
      var items := SplitAll(s[1..|s| - 1]);
      var id := ReadBytes(Find(items, MemberName(0)));
      var key := ReadBytes(Find(items, MemberName(1)));
      var aaguid := ReadBytes(Find(items, MemberName(2)));
      var count := ReadCount(Find(items, MemberName(3)));
      var eligible := ReadBool(Find(items, MemberName(4)));
      var state := ReadBool(Find(items, MemberName(5)));
      if id.Some? && key.Some? && aaguid.Some? && count.Some? && eligible.Some? && state.Some? then
        Some(Stored(id.value, key.value, aaguid.value, count.value, eligible.value, state.value))
      else None
  }

  lemma MemberNames(i: nat, j: nat)
    requires i < 6 && j < 6
    ensures ':' !in MemberName(i) && ',' !in MemberName(i)
    ensures i != j ==> MemberName(i) != MemberName(j)
  {
    assert MemberName(1)[1] == 'p' && MemberName(3)[1] == 's';
  }

  /** Looking a member up by name in a parked document gives the text written for it. */
  lemma FindParked(c: Credential, k: nat)
    requires k < 6
    ensures Find(Items(Members(c)), MemberName(k)) == Some(MemberText(c, k))
  {
    forall i, j | 0 <= i < 6 && 0 <= j < 6
      ensures ':' !in MemberName(i) && (i != j ==> MemberName(i) != MemberName(j))
    {
      MemberNames(i, j);
    }
    FindMember(Members(c), k);
  }

  lemma ReadBytesText(b: seq<Byte>)
    ensures ReadBytes(Some(MarshalBytes(b))) == Some(b)
  {
    UnmarshalMarshalBytes(b);
  }

  lemma ReadBoolText(b: bool)
    ensures ReadBool(Some(BoolText(b))) == Some(b)
  {
  }

  lemma ReadCountText(n: Uint32)
    ensures ReadCount(Some(Decimal(n))) == Some(n)
  {
    NumberOfDecimal(n);
  }

  lemma ParkedBytes(c: Credential)
    ensures ReadBytes(Some(MemberText(c, 0))) == Some(c.id)
    ensures ReadBytes(Some(MemberText(c, 1))) == Some(KeyColumn(c.publicKey))
    ensures ReadBytes(Some(MemberText(c, 2))) == Some(c.aaguid)
  {
    ReadBytesText(c.id);
    ReadBytesText(KeyColumn(c.publicKey));
    ReadBytesText(c.aaguid);
  }

  lemma ParkedScalars(c: Credential)
    ensures ReadCount(Some(MemberText(c, 3))) == Some(c.signCount)
    ensures ReadBool(Some(MemberText(c, 4))) == Some(c.backupEligible)
    ensures ReadBool(Some(MemberText(c, 5))) == Some(c.backupState)
  {
    ReadCountText(c.signCount);
    ReadBoolText(c.backupEligible);
    ReadBoolText(c.backupState);
  }

  lemma MemberTextPlain(c: Credential, k: nat)
    requires k < 6
    ensures ',' !in MemberText(c, k)
  {
    MarshalBytesPlain(c.id);
    MarshalBytesPlain(KeyColumn(c.publicKey));
    MarshalBytesPlain(c.aaguid);
    assert forall i :: 0 <= i < |Decimal(c.signCount)| ==> IsDigit(Decimal(c.signCount)[i]);
  }

  lemma ParkedItems(c: Credential)
    ensures var s := Park(c);
            && |s| >= 2 && s[0] == '{' && s[|s| - 1] == '}'
            && SplitAll(s[1..|s| - 1]) == Items(Members(c))
  {
    var s, items := Park(c), Items(Members(c));
    forall i | 0 <= i < |items| ensures ',' !in items[i] {
      MemberNames(i, i);
      MemberTextPlain(c, i);
      assert items[i] == MemberName(i) + [':'] + MemberText(c, i);
    }
    assert s[1..|s| - 1] == Join(items);
    SplitAllJoin(items);
  }

  /** Parking and reading back: every field returns, the key with exactly one JSON layer left on it. */
  lemma UnparkPark(c: Credential)
    ensures Unpark(Park(c)) ==
            Some(Stored(c.id, KeyColumn(c.publicKey), c.aaguid, c.signCount, c.backupEligible, c.backupState))
  {
    ParkedItems(c);
    ParkedBytes(c);
    ParkedScalars(c);
    FindParked(c, 0);
    FindParked(c, 1);
    FindParked(c, 2);
    FindParked(c, 3);
    FindParked(c, 4);
    FindParked(c, 5);
  }

  /** Park-then-approve and add-directly leave the same column, and loading it gives the key back. */
  lemma TwoPathsOneKey(c: Credential)
    ensures Unpark(Park(c)).Some? && Unpark(Park(c)).value.publicKey == KeyColumn(c.publicKey)
    ensures LoadKey(Unpark(Park(c)).value.publicKey) == c.publicKey
  {
    UnparkPark(c);
    LoadKeyColumn(c.publicKey);
  }
}
