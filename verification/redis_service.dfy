/** `RedisService`: the refresh-token slots and the one-time codes in one flat keyspace, as the authentication
    protocol sees them. */
module RedisSlots {
  import opened Wrappers
  import opened RedisStore
  import A = Authentication

  /** What a key of this service is for. */
  datatype Purpose = RefreshToken(user: string) | OneTimeCode(email: string)

  function KeyName(p: Purpose): string {
    match p
    case RefreshToken(user) => "user-" + user
    case OneTimeCode(email) => "otp:" + email
  }

  lemma KeyNameInjective(p: Purpose, q: Purpose)
    requires KeyName(p) == KeyName(q)
    ensures p == q
  {
    assert KeyName(p)[0] == if p.RefreshToken? then 'u' else 'o';
    assert KeyName(q)[0] == if q.RefreshToken? then 'u' else 'o';
    match p
    case RefreshToken(user) => assert KeyName(p)[5..] == user && KeyName(q)[5..] == q.user;
    case OneTimeCode(email) => assert KeyName(p)[4..] == email && KeyName(q)[4..] == q.email;
  }

  /** What a protocol state keeps under a key. */
  function Kept(s: A.State, p: Purpose): Option<Entry> {
    match p
    case RefreshToken(user) => if user in s.slots then Some(Entry(String(TokenId(s.slots[user])), None)) else None
    case OneTimeCode(email) =>
      if email in s.otps then Some(Entry(String(OtpHash(s.otps[email].hash)), Some(s.otps[email].setAt + A.OTP_TTL)))
      else None
  }

  class RedisService {
    const redis: RedisClient

    constructor (redis: RedisClient)
      requires redis.store == map[]
      ensures this.redis == redis && Holds(A.Start(redis.now))
    {
      this.redis := redis;
    }

    /** `GET`: an expired value is gone. */
    function Get(p: Purpose): Option<Text>
      reads redis
    {
      match Live(redis.store, KeyName(p), redis.now)
      case Some(Entry(String(text), _)) => Some(text)
      case _ => None
    }

    /** The keyspace holds the token slots and the codes of a protocol state, each under its own name. */
    ghost predicate Holds(s: A.State)
      reads redis
    {
      redis.now == s.now && forall p :: Raw(redis.store, KeyName(p)) == Kept(s, p)
    }

    /** A command that overwrites or deletes one key. */
    method Send(p: Purpose, op: Op, ghost s: A.State, ghost s': A.State)
      requires Holds(s) && s'.now == s.now && (op.Set? || op.SetEx? || op.Del?)
      requires forall q :: Kept(s', q) == if q == p then Perform(None, s.now, op) else Kept(s, q)
      modifies redis`store
      ensures Holds(s') && redis.store == Exec(old(redis.store), redis.now, Command(KeyName(p), op))
    {
      redis.Send(KeyName(p), op);
      forall q ensures Raw(redis.store, KeyName(q)) == Kept(s', q) {
        assert Raw(old(redis.store), KeyName(q)) == Kept(s, q);
        if KeyName(q) == KeyName(p) {
          KeyNameInjective(q, p);
        }
      }
    }

    method Insert(user: string, id: nat, ghost s: A.State)
      requires Holds(s)
      modifies redis`store
      ensures Holds(s.(slots := s.slots[user := id]))
      ensures redis.store == old(redis.store)["user-" + user := Entry(String(TokenId(id)), None)]
    {
      Send(RefreshToken(user), Set(TokenId(id)), s, s.(slots := s.slots[user := id]));
    }

    method Validate(user: string, id: nat, ghost s: A.State) returns (valid: bool)
      requires Holds(s)
      ensures valid == A.Validates(s, user, id)
    {
      assert Raw(redis.store, KeyName(RefreshToken(user))) == Kept(s, RefreshToken(user));
      valid := Get(RefreshToken(user)) == Some(TokenId(id));
    }

    method InValidate(user: string, ghost s: A.State)
      requires Holds(s)
      modifies redis`store
      ensures Holds(s.(slots := s.slots - {user}))
      ensures redis.store == old(redis.store) - {"user-" + user}
    {
      Send(RefreshToken(user), Del, s, s.(slots := s.slots - {user}));
    }

    method SetOtp(email: string, hash: string, ghost s: A.State)
      requires Holds(s)
      modifies redis`store
      ensures Holds(s.(otps := s.otps[email := A.Otp(hash, s.now)]))
      ensures redis.store == old(redis.store)["otp:" + email := Entry(String(OtpHash(hash)), Some(redis.now + 600_000))]
    {
      Send(OneTimeCode(email), SetEx(600, OtpHash(hash)), s, s.(otps := s.otps[email := A.Otp(hash, s.now)]));
    }

    method GetOtp(email: string, ghost s: A.State) returns (hash: Option<Text>)
      requires Holds(s)
      ensures hash == match A.LiveOtp(s, email) case None => None case Some(otp) => Some(OtpHash(otp.hash))
    {
      assert Raw(redis.store, KeyName(OneTimeCode(email))) == Kept(s, OneTimeCode(email));
      hash := Get(OneTimeCode(email));
    }

    method InvalidateOtp(email: string, ghost s: A.State)
      requires Holds(s)
      modifies redis`store
      ensures Holds(s.(otps := s.otps - {email}))
      ensures redis.store == old(redis.store) - {"otp:" + email}
    {
      Send(OneTimeCode(email), Del, s, s.(otps := s.otps - {email}));
    }
  }
}
