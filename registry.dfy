/** Webhook registration records: `createWebhook`'s record construction and
    `getUserWebhooks`'s owner query, as functions over values. */
module Registry {
  import opened Wrappers

  /** The caller's `Partial<IWebhook>`: any field may be missing. Only the
      fields the service reads or overrides are modelled. */
  datatype WebhookData = WebhookData(
    name: Option<string>,
    url: Option<string>,
    userId: Option<string>,
    isActive: Option<bool>,
    createdAt: Option<int>,
    updatedAt: Option<int>)

  /** A stored webhook document; `id` is the identifier the store assigned. */
  datatype Webhook = Webhook(
    id: string,
    userId: string,
    name: Option<string>,
    url: Option<string>,
    isActive: bool,
    createdAt: int,
    updatedAt: int)

  /** What the external validator reports about a `WebhookData`. */
  datatype Validation = Validation(isValid: bool, errors: seq<string>)

  /** `Array.prototype.join`: the parts in order with `sep` between neighbours. */
  function Join(parts: seq<string>, sep: string): string
  {
    if |parts| == 0 then ""
    else if |parts| == 1 then parts[0]
    else parts[0] + sep + Join(parts[1..], sep)
  }

  /** Joining two non-empty lists is joining each and putting one separator
      between them, so every error keeps its place in the message. */
  lemma {:induction false} JoinConcat(a: seq<string>, b: seq<string>, sep: string)
    requires |a| > 0 && |b| > 0
    ensures Join(a + b, sep) == Join(a, sep) + sep + Join(b, sep)
  {
    if |a| == 1 {
      assert a + b == [a[0]] + b;
      assert (a + b)[1..] == b;
    } else {
      assert (a + b)[1..] == a[1..] + b;
      JoinConcat(a[1..], b, sep);
    }
  }

  const InvalidPrefix: string := "Invalid webhook data: "

  /** A failed validation is reported with every error, in order, after the prefix. */
  function ValidationMessage(errors: seq<string>): (msg: string)
    ensures |errors| == 0 ==> msg == InvalidPrefix
    ensures |errors| == 1 ==> msg == InvalidPrefix + errors[0]
  {
    InvalidPrefix + Join(errors, ", ")
  }

  /** The message of a longer error list is the message of its first part
      followed by ", " and the rest, so the errors appear in their order. */
  lemma ValidationMessageConcat(a: seq<string>, b: seq<string>)
    requires |a| > 0 && |b| > 0
    ensures ValidationMessage(a + b) == ValidationMessage(a) + ", " + Join(b, ", ")
  {
    JoinConcat(a, b, ", ");
    PrefixThenJoin(Join(a + b, ", "), Join(a, ", "), Join(b, ", "));
  }

  /** Putting the prefix in front of a joined message regroups with its parts. */
  lemma PrefixThenJoin(jab: string, ja: string, jb: string)
    requires jab == ja + ", " + jb
    ensures InvalidPrefix + jab == InvalidPrefix + ja + ", " + jb
  {
  }

  /** The record `createWebhook` saves: the input spread first, then
      `userId`, `isActive: true` and the two timestamps on top of it. */
  function CreateWebhook(
    id: string, userId: string, data: WebhookData, validation: Validation,
    createdAt: int, updatedAt: int): (r: Result<Webhook>)
    ensures r.Failure? <==> !validation.isValid
    ensures r.Failure? ==> r.error == ValidationMessage(validation.errors)
    ensures r.Success? ==>
      && r.value.id == id
      && r.value.userId == userId
      && r.value.isActive
      && r.value.name == data.name
      && r.value.url == data.url
      && r.value.createdAt == createdAt
      && r.value.updatedAt == updatedAt
  {
    if !validation.isValid then
      Failure(ValidationMessage(validation.errors))
    else
      // The literal's later keys win, so the input's `userId`, `isActive`,
      // `createdAt` and `updatedAt` never reach the record.
      Success(Webhook(id, userId, data.name, data.url, true, createdAt, updatedAt))
  }

  /** Whatever the input carried for the overridden fields, the record is the same. */
  lemma OverridesIgnoreInput(
    id: string, userId: string, data: WebhookData, other: WebhookData,
    validation: Validation, createdAt: int, updatedAt: int)
    requires other.name == data.name && other.url == data.url
    ensures CreateWebhook(id, userId, data, validation, createdAt, updatedAt)
         == CreateWebhook(id, userId, other, validation, createdAt, updatedAt)
  {
  }

  /** Newest-created first: `createdAt` never increases along the sequence. */
  ghost predicate NewestFirst(s: seq<Webhook>) {
    forall i, j :: 0 <= i < j < |s| ==> s[i].createdAt >= s[j].createdAt
  }

  /** A newest-first sequence stays newest first when an element no older
      than any of its members is put in front. */
  lemma ConsNewestFirst(a: Webhook, t: seq<Webhook>)
    requires NewestFirst(t)
    requires forall x :: x in t ==> a.createdAt >= x.createdAt
    ensures NewestFirst([a] + t)
  {
    forall i, j | 0 <= i < j < |[a] + t|
      ensures ([a] + t)[i].createdAt >= ([a] + t)[j].createdAt
    {
      assert ([a] + t)[j] == t[j - 1];
      if i > 0 {
        assert ([a] + t)[i] == t[i - 1];
      }
    }
  }

  /** Inserts `w` into a newest-first sequence, keeping it newest first. */
  function InsertNewestFirst(w: Webhook, s: seq<Webhook>): (r: seq<Webhook>)
    requires NewestFirst(s)
    ensures NewestFirst(r)
    ensures forall x :: x in r ==> x in s || x == w
    ensures multiset(r) == multiset(s) + multiset{w}
  {
    if s == [] then [w]
    else if w.createdAt >= s[0].createdAt then
      ConsNewestFirst(w, s);
      [w] + s
    else
      assert s == [s[0]] + s[1..];
      var rest := InsertNewestFirst(w, s[1..]);
      assert forall x :: x in s[1..] ==> s[0].createdAt >= x.createdAt by {
        forall x | x in s[1..] ensures s[0].createdAt >= x.createdAt {
          var k :| 0 <= k < |s[1..]| && s[1..][k] == x;
          assert s[k + 1] == x;
        }
      }
      ConsNewestFirst(s[0], rest);
      [s[0]] + rest
  }

  /** `sort({createdAt: -1})`. */
  function SortNewestFirst(s: seq<Webhook>): (r: seq<Webhook>)
    ensures NewestFirst(r)
    ensures multiset(r) == multiset(s)
  {
    if s == [] then []
    else
      assert s == [s[0]] + s[1..];
      InsertNewestFirst(s[0], SortNewestFirst(s[1..]))
  }

  /** `find({userId})`: the documents, in store order, owned by `userId`,
      each as often as stored. */
  function OwnedBy(docs: seq<Webhook>, userId: string): (r: seq<Webhook>)
    ensures forall w :: w in r <==> w in docs && w.userId == userId
    ensures forall w :: multiset(r)[w] == if w.userId == userId then multiset(docs)[w] else 0
    ensures multiset(r) <= multiset(docs)
  {
    if docs == [] then []
    else
      assert docs == [docs[0]] + docs[1..];
      (if docs[0].userId == userId then [docs[0]] else []) + OwnedBy(docs[1..], userId)
  }

  /** `getUserWebhooks`: exactly the user's webhooks, each as often as stored,
      newest created first. */
  function UserWebhooks(docs: seq<Webhook>, userId: string): (r: seq<Webhook>)
    ensures forall w :: w in r <==> w in docs && w.userId == userId
    ensures multiset(r) == multiset(OwnedBy(docs, userId))
    ensures forall w :: multiset(r)[w] == if w.userId == userId then multiset(docs)[w] else 0
    ensures NewestFirst(r)
  {
    var r := SortNewestFirst(OwnedBy(docs, userId));
    assert forall w :: w in r <==> w in multiset(OwnedBy(docs, userId));
    r
  }
}
