/** The inline IAM policy that scopes an STS federation token to one backup
    path, the federation-token request around it, and the part of IAM's
    evaluation needed to say what the policy lets a holder do: an Allow
    statement applies when its action is the request's, one of its resource
    patterns matches the request's ARN ('*' any run of characters, '?' one
    character) and its condition holds. */
module AwsPolicy {
  import opened Errors
  import opened Strings

  datatype Condition = Unconditional | StringLike(key: string, patterns: seq<string>)

  datatype Statement = Statement(effect: string, action: string, resources: seq<string>, condition: Condition)

  type Policy = seq<Statement>

  datatype FederationTokenRequest = FederationTokenRequest(durationSeconds: int, name: string, policy: Policy)

  const S3_ARN_PREFIX: string := "arn:aws:s3:::"
  const FEDERATION_TOKEN_NAME: string := "GetProjectBackupFile"

  function BucketArn(bucket: string): string {
    S3_ARN_PREFIX + bucket
  }

  function ObjectArn(bucket: string, key: string): string {
    S3_ARN_PREFIX + bucket + "/" + key
  }

  /** The policy literal: read every object under `path`, and list the
      bucket for prefixes under `path` (the list right is needed by bulk
      loaders that list before fetching even one object). */
  function ReadOnlyPolicy(bucket: string, path: string): Policy {
    [ Statement("Allow", "s3:GetObject", [S3_ARN_PREFIX + bucket + "/" + path + "*"], Unconditional),
      Statement("Allow", "s3:ListBucket", [S3_ARN_PREFIX + bucket], StringLike("s3:prefix", [path + "*"])) ]
  }

  /** `getFederationToken([...])` for a token valid for `hours` hours. */
  function FederationTokenRequestFor(bucket: string, path: string, hours: nat): (r: FederationTokenRequest)
    ensures r.durationSeconds == hours * 3600
    ensures r.name == FEDERATION_TOKEN_NAME
    ensures |r.policy| == 2 && forall i :: 0 <= i < 2 ==> r.policy[i].effect == "Allow"
  {
    FederationTokenRequest(hours * 3600, FEDERATION_TOKEN_NAME, ReadOnlyPolicy(bucket, path))
  }

  predicate NoWildcards(s: string) {
    '*' !in s && '?' !in s
  }

  /** IAM's string matching with '*' and '?'. */
  predicate Matches(pattern: string, s: string)
    decreases |pattern| + |s|
  {
    if pattern == [] then s == []
    else if pattern[0] == '*' then Matches(pattern[1..], s) || (s != [] && Matches(pattern, s[1..]))
    else s != [] && (pattern[0] == '?' || pattern[0] == s[0]) && Matches(pattern[1..], s[1..])
  }

  /** A request as IAM evaluates it: the action, the ARN it is on and, for a
      listing, the `s3:prefix` it asks for. */
  datatype S3Request = S3Request(action: string, resource: string, prefix: Option<string>)

  predicate ConditionHolds(c: Condition, req: S3Request) {
    match c
    case Unconditional => true
    case StringLike(key, patterns) =>
      key == "s3:prefix" && req.prefix.Some? && exists k :: 0 <= k < |patterns| && Matches(patterns[k], req.prefix.value)
  }

  predicate StatementAllows(st: Statement, req: S3Request) {
    && st.effect == "Allow"
    && st.action == req.action
    && (exists j :: 0 <= j < |st.resources| && Matches(st.resources[j], req.resource))
    && ConditionHolds(st.condition, req)
  }

  predicate Allows(policy: Policy, req: S3Request) {
    exists i :: 0 <= i < |policy| && StatementAllows(policy[i], req)
  }

  lemma {:induction false} StarMatchesEverything(s: string)
    ensures Matches("*", s)
  {
    if s != [] {
      StarMatchesEverything(s[1..]);
    }
  }

  /** A literal followed by '*' matches exactly the strings it is a prefix of. */
  lemma {:induction false} LiteralStarMatches(lit: string, s: string)
    requires NoWildcards(lit)
    ensures Matches(lit + "*", s) <==> lit <= s
  {
    if lit == [] {
      assert lit + "*" == "*";
      StarMatchesEverything(s);
    } else {
      var pattern := lit + "*";
      assert pattern[0] == lit[0] && pattern[1..] == lit[1..] + "*";
      if s != [] {
        LiteralStarMatches(lit[1..], s[1..]);
        assert lit <= s <==> lit[0] == s[0] && lit[1..] <= s[1..];
      }
    }
  }

  /** A literal matches only itself. */
  lemma {:induction false} LiteralMatches(lit: string, s: string)
    requires NoWildcards(lit)
    ensures Matches(lit, s) <==> lit == s
  {
    if lit != [] && s != [] {
      LiteralMatches(lit[1..], s[1..]);
      assert lit == s <==> lit[0] == s[0] && lit[1..] == s[1..];
    }
  }

  lemma PrefixCancel(a: string, x: string, y: string)
    ensures a + x <= a + y <==> x <= y
  {
    if a + x <= a + y {
      assert x == (a + x)[|a|..] && y == (a + y)[|a|..];
    }
    if x <= y {
      assert a + x == (a + y)[..|a| + |x|];
    }
  }

  /** The token reads exactly the objects whose key starts with the backup
      path, in the configured bucket and no other. */
  lemma ReadOnlyPolicyObjects(bucket: string, path: string, otherBucket: string, key: string, prefix: Option<string>)
    requires NoWildcards(bucket) && NoWildcards(path)
    requires '/' !in bucket && '/' !in otherBucket
    ensures Allows(ReadOnlyPolicy(bucket, path), S3Request("s3:GetObject", ObjectArn(otherBucket, key), prefix))
            <==> otherBucket == bucket && path <= key
  {
    var policy := ReadOnlyPolicy(bucket, path);
    var req := S3Request("s3:GetObject", ObjectArn(otherBucket, key), prefix);
    var lit := S3_ARN_PREFIX + bucket + "/" + path;
    assert policy[0].resources[0] == lit + "*";
    LiteralStarMatches(lit, req.resource);
    assert lit == S3_ARN_PREFIX + (bucket + "/" + path);
    assert req.resource == S3_ARN_PREFIX + (otherBucket + "/" + key);
    PrefixCancel(S3_ARN_PREFIX, bucket + "/" + path, otherBucket + "/" + key);
    if bucket + "/" + path <= otherBucket + "/" + key {
      SlashPrefix(bucket, path, otherBucket, key);
    }
    if otherBucket == bucket && path <= key {
      PrefixCancel(bucket + "/", path, key);
      assert StatementAllows(policy[0], req);
    }
  }

  /** The token lists the configured bucket only, and only for prefixes under
      the backup path. */
  lemma ReadOnlyPolicyListing(bucket: string, path: string, otherBucket: string, prefix: string)
    requires NoWildcards(bucket) && NoWildcards(path)
    ensures Allows(ReadOnlyPolicy(bucket, path), S3Request("s3:ListBucket", BucketArn(otherBucket), Some(prefix)))
            <==> otherBucket == bucket && path <= prefix
  {
    var policy := ReadOnlyPolicy(bucket, path);
    var req := S3Request("s3:ListBucket", BucketArn(otherBucket), Some(prefix));
    LiteralMatches(S3_ARN_PREFIX + bucket, req.resource);
    LiteralStarMatches(path, prefix);
    PrefixCancel(S3_ARN_PREFIX, bucket, otherBucket);
    assert S3_ARN_PREFIX + bucket == S3_ARN_PREFIX + otherBucket <==> bucket == otherBucket;
    if otherBucket == bucket && path <= prefix {
      assert Matches(policy[1].resources[0], req.resource);
      assert Matches(policy[1].condition.patterns[0], prefix);
      assert StatementAllows(policy[1], req);
    }
  }

  /** Every other action, writes included, is denied. */
  lemma ReadOnlyPolicyDeniesOtherActions(bucket: string, path: string, req: S3Request)
    requires req.action != "s3:GetObject" && req.action != "s3:ListBucket"
    ensures !Allows(ReadOnlyPolicy(bucket, path), req)
  {
  }
}
