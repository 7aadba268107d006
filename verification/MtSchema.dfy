/** libkg/mtschema: the reader and the writer of each service type of the protocol, each written
    out step by step, against one table of the types' constructors. */
module MtSchema {
  import opened Integers
  import opened Bytes
  import opened Codec
  import opened Streams

  const RES_PQ_FIELDS: Fields :=
    Field("nonce", Raw(16), Field("server_nonce", Raw(16), Field("pq", Text,
    Field("server_public_key_fingerprints", List(Long), End))))
  const RES_PQ_TYPE: Kind :=
    Boxed(Case(85337187, RES_PQ_FIELDS, NoCase))

  const PQ_INNER_DATA_DC_FIELDS: Fields :=
    Field("pq", Text, Field("p", Text, Field("q", Text, Field("nonce", Raw(16),
    Field("server_nonce", Raw(16), Field("new_nonce", Raw(32), Field("dc", Int, End)))))))
  const PQ_INNER_DATA_TEMP_DC_FIELDS: Fields :=
    Field("pq", Text, Field("p", Text, Field("q", Text, Field("nonce", Raw(16),
    Field("server_nonce", Raw(16), Field("new_nonce", Raw(32), Field("dc", Int,
    Field("expires_in", Int, End))))))))
  const PQ_INNER_DATA_TYPE: Kind :=
    Boxed(Case(-1443537003, PQ_INNER_DATA_DC_FIELDS, Case(1459478408, PQ_INNER_DATA_TEMP_DC_FIELDS, NoCase)))

  const SERVER_DH_PARAMS_OK_FIELDS: Fields :=
    Field("nonce", Raw(16), Field("server_nonce", Raw(16), Field("encrypted_answer", Text, End)))
  const SERVER_DH_PARAMS_TYPE: Kind :=
    Boxed(Case(-790100132, SERVER_DH_PARAMS_OK_FIELDS, NoCase))

  const SERVER_DH_INNER_DATA_FIELDS: Fields :=
    Field("nonce", Raw(16), Field("server_nonce", Raw(16), Field("g", Int, Field("dh_prime", Text,
    Field("g_a", Text, Field("server_time", Int, End))))))
  const SERVER_DH_INNER_DATA_TYPE: Kind :=
    Boxed(Case(-1249309254, SERVER_DH_INNER_DATA_FIELDS, NoCase))

  const CLIENT_DH_INNER_DATA_FIELDS: Fields :=
    Field("nonce", Raw(16), Field("server_nonce", Raw(16), Field("retry_id", Long,
    Field("g_b", Text, End))))
  const CLIENT_DH_INNER_DATA_TYPE: Kind :=
    Boxed(Case(1715713620, CLIENT_DH_INNER_DATA_FIELDS, NoCase))

  const DH_GEN_OK_FIELDS: Fields :=
    Field("nonce", Raw(16), Field("server_nonce", Raw(16), Field("new_nonce_hash1", Raw(16), End)))
  const DH_GEN_RETRY_FIELDS: Fields :=
    Field("nonce", Raw(16), Field("server_nonce", Raw(16), Field("new_nonce_hash2", Raw(16), End)))
  const DH_GEN_FAIL_FIELDS: Fields :=
    Field("nonce", Raw(16), Field("server_nonce", Raw(16), Field("new_nonce_hash3", Raw(16), End)))
  const SET_CLIENT_DH_PARAMS_ANSWER_TYPE: Kind :=
    Boxed(Case(1003222836, DH_GEN_OK_FIELDS,
    Case(1188831161, DH_GEN_RETRY_FIELDS,
    Case(-1499615742, DH_GEN_FAIL_FIELDS, NoCase))))

  const FUTURE_SALT_FIELDS: Fields :=
    Field("valid_since", Int, Field("valid_until", Int, Field("salt", Long, End)))
  const FUTURE_SALT_TYPE: Kind :=
    Boxed(Case(155834844, FUTURE_SALT_FIELDS, NoCase))

  const FUTURE_SALTS_FIELDS: Fields :=
    Field("req_msg_id", Long, Field("now", Int, Field("salts", List(FUTURE_SALT_TYPE), End)))
  const FUTURE_SALTS_TYPE: Kind :=
    Boxed(Case(-1370486635, FUTURE_SALTS_FIELDS, NoCase))

  const MSGS_ACK_FIELDS: Fields :=
    Field("msg_ids", List(Long), End)
  const MSGS_ACK_TYPE: Kind :=
    Boxed(Case(1658238041, MSGS_ACK_FIELDS, NoCase))

  const BAD_MSG_NOTIFICATION_FIELDS: Fields :=
    Field("bad_msg_id", Long, Field("bad_msg_seqno", Int, Field("error_code", Int, End)))
  const BAD_SERVER_SALT_FIELDS: Fields :=
    Field("bad_msg_id", Long, Field("bad_msg_seqno", Int, Field("error_code", Int,
    Field("new_server_salt", Long, End))))
  const BAD_MSG_NOTIFICATION_TYPE: Kind :=
    Boxed(Case(-1477445615, BAD_MSG_NOTIFICATION_FIELDS, Case(-307542917, BAD_SERVER_SALT_FIELDS, NoCase)))

  // --- vectors ------------------------------------------------------------------------------

  /** The element callbacks that occur. */
  predicate Callback(item: Kind) {
    item == Long || item == FUTURE_SALT_TYPE
  }

  method WriteItem(s: TelegramStream, v: Value, item: Kind)
    requires s.Valid() && Callback(item)
    modifies s
    ensures s.Valid() && s.Tape() == Put(old(s.Tape()), Encode(item, v))
  {
    if item == Long { s.WriteInt64(v); } else { WriteFutureSalt(s, v); }
  }

  method ReadItem(s: TelegramStream, prior: Value, item: Kind) returns (v: Value)
    requires s.Valid() && Callback(item)
    modifies s`position
    ensures s.Valid() && (v, s.Rest()) == Decode(item, prior, old(s.Rest()))
  {
    if item == Long { v := s.ReadInt64(); } else { v := ReadFutureSalt(s); }
  }

  lemma {:induction false} ItemsConcat(item: Kind, vs: seq<Value>, v: Value)
    ensures EncodeItems(item, vs + [v]) == EncodeItems(item, vs) + Encode(item, v)
  {
    hide Encode;
    if vs == [] {
      assert [v][1..] == [];
      assert EncodeItems(item, [v]) == Encode(item, v) + [];
    } else {
      assert (vs + [v])[1..] == vs[1..] + [v];
      ItemsConcat(item, vs[1..], v);
    }
  }

  method WriteVector(s: TelegramStream, v: Value, item: Kind)
    requires s.Valid() && Callback(item)
    modifies s
    ensures s.Valid() && s.Tape() == Put(old(s.Tape()), Encode(List(item), v))
  {
    hide Put, Little;
    ghost var t := s.Tape();
    var list := v.ToList();
    s.WriteInt32(Number(VECTOR_ID));
    s.WriteInt32(Number(|list|));
    ghost var head := Little(VECTOR_ID, 4) + Little(|list|, 4);
    PutPut(t, Little(VECTOR_ID, 4), Little(|list|, 4));
    PutNothing(Put(t, head));
    for i := 0 to |list|
      invariant s.Valid()
      invariant s.Tape() == Put(Put(t, head), EncodeItems(item, list[..i]))
    {
      WriteItem(s, list[i], item);
      PutPut(Put(t, head), EncodeItems(item, list[..i]), Encode(item, list[i]));
      ItemsConcat(item, list[..i], list[i]);
      assert list[..i + 1] == list[..i] + [list[i]];
    }
    assert list[..|list|] == list;
    PutPut(t, head, EncodeItems(item, list));
  }

  lemma OneMoreItem(item: Kind, prior: Value, count: nat, bs: bytes, list: seq<Value>)
    requires count > 0
    ensures var (v, r) := Decode(item, prior, bs);
            var more, less := DecodeItems(item, prior, count, bs), DecodeItems(item, v, count - 1, r);
            (list + more.0, more.1) == ((list + [v]) + less.0, less.1)
  {
    hide Decode;
    var (v, r) := Decode(item, prior, bs);
    var less := DecodeItems(item, v, count - 1, r);
    assert list + ([v] + less.0) == (list + [v]) + less.0;
  }

  /** The loop over the elements, all read into one variable. */
  method ReadItems(s: TelegramStream, prior: Value, item: Kind, length: int) returns (list: seq<Value>)
    requires s.Valid() && Callback(item)
    modifies s`position
    ensures s.Valid() && (list, s.Rest()) == DecodeItems(item, prior, if length < 0 then 0 else length, old(s.Rest()))
  {
    hide Decode, DecodeItems, Callback;
    var variable := prior;
    var i := 0;
    list := [];
    ghost var count: nat := if length < 0 then 0 else length;
    ghost var all := DecodeItems(item, prior, count, s.Rest());
    assert list + all.0 == all.0;
    while i < length
      invariant 0 <= i <= count && s.Valid()
      invariant var more := DecodeItems(item, variable, count - i, s.Rest()); all == (list + more.0, more.1)
    {
      OneMoreItem(item, variable, count - i, s.Rest(), list);
      variable := ReadItem(s, variable, item);
      list := list + [variable];
      i := i + 1;
    }
    NoMoreItems(item, variable, s.Rest());
    assert list + [] == list;
  }

  lemma NoMoreItems(item: Kind, prior: Value, bs: bytes)
    ensures DecodeItems(item, prior, 0, bs) == ([], bs)
  {
  }

  /** Leaves the variable as it was when the bytes are not a vector's. */
  method ReadVector(s: TelegramStream, prior: Value, item: Kind) returns (v: Value)
    requires s.Valid() && Callback(item)
    modifies s`position
    ensures s.Valid() && (v, s.Rest()) == Decode(List(item), prior, old(s.Rest()))
  {
    hide TakeInt, DecodeItems, Callback;
    var id := s.ReadNumber(4);
    if id != VECTOR_ID { return prior; }
    var length := s.ReadNumber(4);
    var list := ReadItems(s, Number(length), item, length);
    v := Many(list);
  }

  // --- the types ----------------------------------------------------------------------------

  method WriteResPQ(s: TelegramStream, v: Value)
    requires s.Valid()
    modifies s
    ensures s.Valid() && s.Tape() == Put(old(s.Tape()), Encode(RES_PQ_TYPE, v))
  {
    hide Put, Encode;
    ghost var t := s.Tape();
    BoxedIsPut(t, RES_PQ_TYPE, v);
    var id := Wrap32(v.At("_").ToInt());
    if id == 85337187 {
      s.WriteInt32(v.At("_"));
      s.WriteInt128(v.At("nonce"));
      s.WriteInt128(v.At("server_nonce"));
      s.WriteByteArray(v.At("pq"));
      WriteVector(s, v.At("server_public_key_fingerprints"), Long);
    }
  }

  method ReadResPQ(s: TelegramStream) returns (v: Value)
    requires s.Valid()
    modifies s`position
    ensures s.Valid() && forall prior :: (v, s.Rest()) == Decode(RES_PQ_TYPE, prior, old(s.Rest()))
  {
    hide TakeInt;
    var conId := s.ReadNumber(4);
    var obj := map[];
    if conId == 85337187 {
      obj := obj["_" := Number(conId)];
      var nonce := s.ReadInt128();
      obj := obj["nonce" := nonce];
      var serverNonce := s.ReadInt128();
      obj := obj["server_nonce" := serverNonce];
      var pq := s.ReadByteArray();
      obj := obj["pq" := pq];
      var serverPublicKeyFingerprints := ReadVector(s, Nothing, Long);
      obj := obj["server_public_key_fingerprints" := serverPublicKeyFingerprints];
    }
    v := Object(obj);
  }

  method WritePQInnerData(s: TelegramStream, v: Value)
    requires s.Valid()
    modifies s
    ensures s.Valid() && s.Tape() == Put(old(s.Tape()), Encode(PQ_INNER_DATA_TYPE, v))
  {
    hide Put, Encode;
    ghost var t := s.Tape();
    BoxedIsPut(t, PQ_INNER_DATA_TYPE, v);
    var id := Wrap32(v.At("_").ToInt());
    if id == -1443537003 {
      s.WriteInt32(v.At("_"));
      s.WriteByteArray(v.At("pq"));
      s.WriteByteArray(v.At("p"));
      s.WriteByteArray(v.At("q"));
      s.WriteInt128(v.At("nonce"));
      s.WriteInt128(v.At("server_nonce"));
      s.WriteInt256(v.At("new_nonce"));
      s.WriteInt32(v.At("dc"));
    } else if id == 1459478408 {
      s.WriteInt32(v.At("_"));
      s.WriteByteArray(v.At("pq"));
      s.WriteByteArray(v.At("p"));
      s.WriteByteArray(v.At("q"));
      s.WriteInt128(v.At("nonce"));
      s.WriteInt128(v.At("server_nonce"));
      s.WriteInt256(v.At("new_nonce"));
      s.WriteInt32(v.At("dc"));
      s.WriteInt32(v.At("expires_in"));
    } else {
      assert PutCase(t, PQ_INNER_DATA_TYPE.cases.others, v) == t;
    }
  }

  method ReadPQInnerData(s: TelegramStream) returns (v: Value)
    requires s.Valid()
    modifies s`position
    ensures s.Valid() && forall prior :: (v, s.Rest()) == Decode(PQ_INNER_DATA_TYPE, prior, old(s.Rest()))
  {
    hide TakeInt;
    var conId := s.ReadNumber(4);
    var obj := map[];
    if conId == -1443537003 {
      obj := obj["_" := Number(conId)];
      var pq := s.ReadByteArray();
      obj := obj["pq" := pq];
      var p := s.ReadByteArray();
      obj := obj["p" := p];
      var q := s.ReadByteArray();
      obj := obj["q" := q];
      var nonce := s.ReadInt128();
      obj := obj["nonce" := nonce];
      var serverNonce := s.ReadInt128();
      obj := obj["server_nonce" := serverNonce];
      var newNonce := s.ReadInt256();
      obj := obj["new_nonce" := newNonce];
      var dc := s.ReadInt32();
      obj := obj["dc" := dc];
    } else if conId == 1459478408 {
      obj := obj["_" := Number(conId)];
      var pq := s.ReadByteArray();
      obj := obj["pq" := pq];
      var p := s.ReadByteArray();
      obj := obj["p" := p];
      var q := s.ReadByteArray();
      obj := obj["q" := q];
      var nonce := s.ReadInt128();
      obj := obj["nonce" := nonce];
      var serverNonce := s.ReadInt128();
      obj := obj["server_nonce" := serverNonce];
      var newNonce := s.ReadInt256();
      obj := obj["new_nonce" := newNonce];
      var dc := s.ReadInt32();
      obj := obj["dc" := dc];
      var expiresIn := s.ReadInt32();
      obj := obj["expires_in" := expiresIn];
    }
    v := Object(obj);
  }

  method WriteServerDHParams(s: TelegramStream, v: Value)
    requires s.Valid()
    modifies s
    ensures s.Valid() && s.Tape() == Put(old(s.Tape()), Encode(SERVER_DH_PARAMS_TYPE, v))
  {
    hide Put, Encode;
    ghost var t := s.Tape();
    BoxedIsPut(t, SERVER_DH_PARAMS_TYPE, v);
    var id := Wrap32(v.At("_").ToInt());
    if id == -790100132 {
      s.WriteInt32(v.At("_"));
      s.WriteInt128(v.At("nonce"));
      s.WriteInt128(v.At("server_nonce"));
      s.WriteByteArray(v.At("encrypted_answer"));
    }
  }

  method ReadServerDHParams(s: TelegramStream) returns (v: Value)
    requires s.Valid()
    modifies s`position
    ensures s.Valid() && forall prior :: (v, s.Rest()) == Decode(SERVER_DH_PARAMS_TYPE, prior, old(s.Rest()))
  {
    hide TakeInt;
    var conId := s.ReadNumber(4);
    var obj := map[];
    if conId == -790100132 {
      obj := obj["_" := Number(conId)];
      var nonce := s.ReadInt128();
      obj := obj["nonce" := nonce];
      var serverNonce := s.ReadInt128();
      obj := obj["server_nonce" := serverNonce];
      var encryptedAnswer := s.ReadByteArray();
      obj := obj["encrypted_answer" := encryptedAnswer];
    }
    v := Object(obj);
  }

  method WriteServerDHInnerData(s: TelegramStream, v: Value)
    requires s.Valid()
    modifies s
    ensures s.Valid() && s.Tape() == Put(old(s.Tape()), Encode(SERVER_DH_INNER_DATA_TYPE, v))
  {
    hide Put, Encode;
    ghost var t := s.Tape();
    BoxedIsPut(t, SERVER_DH_INNER_DATA_TYPE, v);
    var id := Wrap32(v.At("_").ToInt());
    if id == -1249309254 {
      s.WriteInt32(v.At("_"));
      s.WriteInt128(v.At("nonce"));
      s.WriteInt128(v.At("server_nonce"));
      s.WriteInt32(v.At("g"));
      s.WriteByteArray(v.At("dh_prime"));
      s.WriteByteArray(v.At("g_a"));
      s.WriteInt32(v.At("server_time"));
    }
  }

  method ReadServerDHInnerData(s: TelegramStream) returns (v: Value)
    requires s.Valid()
    modifies s`position
    ensures s.Valid() && forall prior :: (v, s.Rest()) == Decode(SERVER_DH_INNER_DATA_TYPE, prior, old(s.Rest()))
  {
    hide TakeInt;
    var conId := s.ReadNumber(4);
    var obj := map[];
    if conId == -1249309254 {
      obj := obj["_" := Number(conId)];
      var nonce := s.ReadInt128();
      obj := obj["nonce" := nonce];
      var serverNonce := s.ReadInt128();
      obj := obj["server_nonce" := serverNonce];
      var g := s.ReadInt32();
      obj := obj["g" := g];
      var dhPrime := s.ReadByteArray();
      obj := obj["dh_prime" := dhPrime];
      var gA := s.ReadByteArray();
      obj := obj["g_a" := gA];
      var serverTime := s.ReadInt32();
      obj := obj["server_time" := serverTime];
    }
    v := Object(obj);
  }

  method WriteClientDHInnerData(s: TelegramStream, v: Value)
    requires s.Valid()
    modifies s
    ensures s.Valid() && s.Tape() == Put(old(s.Tape()), Encode(CLIENT_DH_INNER_DATA_TYPE, v))
  {
    hide Put, Encode;
    ghost var t := s.Tape();
    BoxedIsPut(t, CLIENT_DH_INNER_DATA_TYPE, v);
    var id := Wrap32(v.At("_").ToInt());
    if id == 1715713620 {
      s.WriteInt32(v.At("_"));
      s.WriteInt128(v.At("nonce"));
      s.WriteInt128(v.At("server_nonce"));
      s.WriteInt64(v.At("retry_id"));
      s.WriteByteArray(v.At("g_b"));
    }
  }

  method ReadClientDHInnerData(s: TelegramStream) returns (v: Value)
    requires s.Valid()
    modifies s`position
    ensures s.Valid() && forall prior :: (v, s.Rest()) == Decode(CLIENT_DH_INNER_DATA_TYPE, prior, old(s.Rest()))
  {
    hide TakeInt;
    var conId := s.ReadNumber(4);
    var obj := map[];
    if conId == 1715713620 {
      obj := obj["_" := Number(conId)];
      var nonce := s.ReadInt128();
      obj := obj["nonce" := nonce];
      var serverNonce := s.ReadInt128();
      obj := obj["server_nonce" := serverNonce];
      var retryId := s.ReadInt64();
      obj := obj["retry_id" := retryId];
      var gB := s.ReadByteArray();
      obj := obj["g_b" := gB];
    }
    v := Object(obj);
  }

  method WriteSetClientDHParamsAnswer(s: TelegramStream, v: Value)
    requires s.Valid()
    modifies s
    ensures s.Valid() && s.Tape() == Put(old(s.Tape()), Encode(SET_CLIENT_DH_PARAMS_ANSWER_TYPE, v))
  {
    hide Put, Encode;
    ghost var t := s.Tape();
    BoxedIsPut(t, SET_CLIENT_DH_PARAMS_ANSWER_TYPE, v);
    var id := Wrap32(v.At("_").ToInt());
    if id == 1003222836 {
      s.WriteInt32(v.At("_"));
      s.WriteInt128(v.At("nonce"));
      s.WriteInt128(v.At("server_nonce"));
      s.WriteInt128(v.At("new_nonce_hash1"));
    } else if id == 1188831161 {
      s.WriteInt32(v.At("_"));
      s.WriteInt128(v.At("nonce"));
      s.WriteInt128(v.At("server_nonce"));
      s.WriteInt128(v.At("new_nonce_hash2"));
    } else if id == -1499615742 {
      s.WriteInt32(v.At("_"));
      s.WriteInt128(v.At("nonce"));
      s.WriteInt128(v.At("server_nonce"));
      s.WriteInt128(v.At("new_nonce_hash3"));
      assert PutCase(t, SET_CLIENT_DH_PARAMS_ANSWER_TYPE.cases.others.others, v) == s.Tape();
    } else {
      assert PutCase(t, SET_CLIENT_DH_PARAMS_ANSWER_TYPE.cases.others.others, v) == t;
    }
  }

  method ReadSetClientDHParamsAnswer(s: TelegramStream) returns (v: Value)
    requires s.Valid()
    modifies s`position
    ensures s.Valid() && forall prior :: (v, s.Rest()) == Decode(SET_CLIENT_DH_PARAMS_ANSWER_TYPE, prior, old(s.Rest()))
  {
    hide TakeInt;
    var conId := s.ReadNumber(4);
    var obj := map[];
    if conId == 1003222836 {
      obj := obj["_" := Number(conId)];
      var nonce := s.ReadInt128();
      obj := obj["nonce" := nonce];
      var serverNonce := s.ReadInt128();
      obj := obj["server_nonce" := serverNonce];
      var newNonceHash1 := s.ReadInt128();
      obj := obj["new_nonce_hash1" := newNonceHash1];
    } else if conId == 1188831161 {
      obj := obj["_" := Number(conId)];
      var nonce := s.ReadInt128();
      obj := obj["nonce" := nonce];
      var serverNonce := s.ReadInt128();
      obj := obj["server_nonce" := serverNonce];
      var newNonceHash2 := s.ReadInt128();
      obj := obj["new_nonce_hash2" := newNonceHash2];
    } else if conId == -1499615742 {
      obj := obj["_" := Number(conId)];
      var nonce := s.ReadInt128();
      obj := obj["nonce" := nonce];
      var serverNonce := s.ReadInt128();
      obj := obj["server_nonce" := serverNonce];
      var newNonceHash3 := s.ReadInt128();
      obj := obj["new_nonce_hash3" := newNonceHash3];
    }
    v := Object(obj);
  }

  method WriteFutureSalt(s: TelegramStream, v: Value)
    requires s.Valid()
    modifies s
    ensures s.Valid() && s.Tape() == Put(old(s.Tape()), Encode(FUTURE_SALT_TYPE, v))
  {
    hide Put, Encode;
    ghost var t := s.Tape();
    BoxedIsPut(t, FUTURE_SALT_TYPE, v);
    var id := Wrap32(v.At("_").ToInt());
    if id == 155834844 {
      s.WriteInt32(v.At("_"));
      s.WriteInt32(v.At("valid_since"));
      s.WriteInt32(v.At("valid_until"));
      s.WriteInt64(v.At("salt"));
    }
  }

  method ReadFutureSalt(s: TelegramStream) returns (v: Value)
    requires s.Valid()
    modifies s`position
    ensures s.Valid() && forall prior :: (v, s.Rest()) == Decode(FUTURE_SALT_TYPE, prior, old(s.Rest()))
  {
    hide TakeInt;
    var conId := s.ReadNumber(4);
    var obj := map[];
    if conId == 155834844 {
      obj := obj["_" := Number(conId)];
      var validSince := s.ReadInt32();
      obj := obj["valid_since" := validSince];
      var validUntil := s.ReadInt32();
      obj := obj["valid_until" := validUntil];
      var salt := s.ReadInt64();
      obj := obj["salt" := salt];
    }
    v := Object(obj);
  }

  method WriteFutureSalts(s: TelegramStream, v: Value)
    requires s.Valid()
    modifies s
    ensures s.Valid() && s.Tape() == Put(old(s.Tape()), Encode(FUTURE_SALTS_TYPE, v))
  {
    hide Put, Encode;
    ghost var t := s.Tape();
    BoxedIsPut(t, FUTURE_SALTS_TYPE, v);
    var id := Wrap32(v.At("_").ToInt());
    if id == -1370486635 {
      s.WriteInt32(v.At("_"));
      s.WriteInt64(v.At("req_msg_id"));
      s.WriteInt32(v.At("now"));
      WriteVector(s, v.At("salts"), FUTURE_SALT_TYPE);
    }
  }

  method ReadFutureSalts(s: TelegramStream) returns (v: Value)
    requires s.Valid()
    modifies s`position
    ensures s.Valid() && forall prior :: (v, s.Rest()) == Decode(FUTURE_SALTS_TYPE, prior, old(s.Rest()))
  {
    hide TakeInt;
    var conId := s.ReadNumber(4);
    var obj := map[];
    if conId == -1370486635 {
      obj := obj["_" := Number(conId)];
      var reqMsgId := s.ReadInt64();
      obj := obj["req_msg_id" := reqMsgId];
      var now := s.ReadInt32();
      obj := obj["now" := now];
      var salts := ReadVector(s, Nothing, FUTURE_SALT_TYPE);
      obj := obj["salts" := salts];
    }
    v := Object(obj);
  }

  method WriteMsgsAck(s: TelegramStream, v: Value)
    requires s.Valid()
    modifies s
    ensures s.Valid() && s.Tape() == Put(old(s.Tape()), Encode(MSGS_ACK_TYPE, v))
  {
    hide Put, Encode;
    ghost var t := s.Tape();
    BoxedIsPut(t, MSGS_ACK_TYPE, v);
    var id := Wrap32(v.At("_").ToInt());
    if id == 1658238041 {
      s.WriteInt32(v.At("_"));
      WriteVector(s, v.At("msg_ids"), Long);
    }
  }

  method ReadMsgsAck(s: TelegramStream) returns (v: Value)
    requires s.Valid()
    modifies s`position
    ensures s.Valid() && forall prior :: (v, s.Rest()) == Decode(MSGS_ACK_TYPE, prior, old(s.Rest()))
  {
    hide TakeInt;
    var conId := s.ReadNumber(4);
    var obj := map[];
    if conId == 1658238041 {
      obj := obj["_" := Number(conId)];
      var msgIds := ReadVector(s, Nothing, Long);
      obj := obj["msg_ids" := msgIds];
    }
    v := Object(obj);
  }

  method WriteBadMsgNotification(s: TelegramStream, v: Value)
    requires s.Valid()
    modifies s
    ensures s.Valid() && s.Tape() == Put(old(s.Tape()), Encode(BAD_MSG_NOTIFICATION_TYPE, v))
  {
    hide Put, Encode;
    ghost var t := s.Tape();
    BoxedIsPut(t, BAD_MSG_NOTIFICATION_TYPE, v);
    var id := Wrap32(v.At("_").ToInt());
    if id == -1477445615 {
      s.WriteInt32(v.At("_"));
      s.WriteInt64(v.At("bad_msg_id"));
      s.WriteInt32(v.At("bad_msg_seqno"));
      s.WriteInt32(v.At("error_code"));
    } else if id == -307542917 {
      s.WriteInt32(v.At("_"));
      s.WriteInt64(v.At("bad_msg_id"));
      s.WriteInt32(v.At("bad_msg_seqno"));
      s.WriteInt32(v.At("error_code"));
      s.WriteInt64(v.At("new_server_salt"));
    } else {
      assert PutCase(t, BAD_MSG_NOTIFICATION_TYPE.cases.others, v) == t;
    }
  }

  method ReadBadMsgNotification(s: TelegramStream) returns (v: Value)
    requires s.Valid()
    modifies s`position
    ensures s.Valid() && forall prior :: (v, s.Rest()) == Decode(BAD_MSG_NOTIFICATION_TYPE, prior, old(s.Rest()))
  {
    hide TakeInt;
    var conId := s.ReadNumber(4);
    var obj := map[];
    if conId == -1477445615 {
      obj := obj["_" := Number(conId)];
      var badMsgId := s.ReadInt64();
      obj := obj["bad_msg_id" := badMsgId];
      var badMsgSeqno := s.ReadInt32();
      obj := obj["bad_msg_seqno" := badMsgSeqno];
      var errorCode := s.ReadInt32();
      obj := obj["error_code" := errorCode];
    } else if conId == -307542917 {
      obj := obj["_" := Number(conId)];
      var badMsgId := s.ReadInt64();
      obj := obj["bad_msg_id" := badMsgId];
      var badMsgSeqno := s.ReadInt32();
      obj := obj["bad_msg_seqno" := badMsgSeqno];
      var errorCode := s.ReadInt32();
      obj := obj["error_code" := errorCode];
      var newServerSalt := s.ReadInt64();
      obj := obj["new_server_salt" := newServerSalt];
    }
    v := Object(obj);
  }

  // --- the table ----------------------------------------------------------------------------

  function Types(): seq<Kind> {
    [RES_PQ_TYPE, PQ_INNER_DATA_TYPE, SERVER_DH_PARAMS_TYPE, SERVER_DH_INNER_DATA_TYPE, CLIENT_DH_INNER_DATA_TYPE,
     SET_CLIENT_DH_PARAMS_ANSWER_TYPE, FUTURE_SALT_TYPE, FUTURE_SALTS_TYPE, MSGS_ACK_TYPE, BAD_MSG_NOTIFICATION_TYPE]
  }

  function Ids(cases: Cases): set<int> {
    match cases
    case NoCase => {}
    case Case(id, _, others) => {id as int} + Ids(others)
  }

  predicate CasesDistinct(cases: Cases) {
    match cases
    case NoCase => true
    case Case(id, fields, others) => id !in Ids(others) && Distinct(fields) && CasesDistinct(others)
  }

  lemma ExchangeFieldsAreDistinct()
    ensures Distinct(RES_PQ_FIELDS) && Distinct(PQ_INNER_DATA_DC_FIELDS) && Distinct(PQ_INNER_DATA_TEMP_DC_FIELDS)
  {
  }

  lemma AgreementFieldsAreDistinct()
    ensures Distinct(SERVER_DH_PARAMS_OK_FIELDS) && Distinct(SERVER_DH_INNER_DATA_FIELDS)
    ensures Distinct(CLIENT_DH_INNER_DATA_FIELDS)
    ensures Distinct(DH_GEN_OK_FIELDS) && Distinct(DH_GEN_RETRY_FIELDS) && Distinct(DH_GEN_FAIL_FIELDS)
  {
  }

  lemma ServiceFieldsAreDistinct()
    ensures Distinct(FUTURE_SALT_FIELDS) && Distinct(FUTURE_SALTS_FIELDS) && Distinct(MSGS_ACK_FIELDS)
    ensures Distinct(BAD_MSG_NOTIFICATION_FIELDS) && Distinct(BAD_SERVER_SALT_FIELDS)
  {
  }

  /** Every type of the table is made of whole words, with no constructor and no field of it
      declared twice; so whatever is of the type is written in words and comes back. */
  lemma TableIsSound(i: nat)
    requires i < |Types()|
    ensures Types()[i].Boxed? && Aligned(Types()[i]) && CasesDistinct(Types()[i].cases)
  {
    hide Distinct;
    ExchangeFieldsAreDistinct();
    AgreementFieldsAreDistinct();
    ServiceFieldsAreDistinct();
  }

  /** No constructor belongs to two types. */
  lemma IdsAreApart(i: nat, j: nat)
    requires i < |Types()| && j < |Types()| && i != j
    ensures Types()[i].Boxed? && Types()[j].Boxed?
    ensures Ids(Types()[i].cases) !! Ids(Types()[j].cases)
  {
    if i < j { LaterIdsAreApart(i, j); } else { LaterIdsAreApart(j, i); }
  }

  lemma LaterIdsAreApart(i: nat, j: nat)
    requires i < j < |Types()|
    ensures Types()[i].Boxed? && Types()[j].Boxed?
    ensures Ids(Types()[i].cases) !! Ids(Types()[j].cases)
  {
  }

  lemma {:induction false} UnknownCase(cases: Cases, id: int, bs: bytes)
    requires id !in Ids(cases)
    ensures DecodeCase(cases, id, bs) == (Object(map[]), bs)
  {
    if cases.Case? { UnknownCase(cases.others, id, bs); }
  }

  lemma {:induction false} WrittenId(cases: Cases, id: int, v: Value, suffix: bytes)
    requires CaseFits(cases, id, v)
    ensures id in Ids(cases)
    ensures TakeInt(EncodeCase(cases, id, v) + suffix, 4).0 == id
  {
    if id == cases.id {
      var tail := EncodeFields(cases.fields, v) + suffix;
      assert EncodeCase(cases, id, v) + suffix == Little(id, 4) + tail;
      WidthBounds();
      TakeIntBack(id, 4, tail);
    } else {
      CaseIdIsInt32(cases.others, id, v);
      WrittenId(cases.others, id, v, suffix);
    }
  }

  /** The reader of one type, given another type's object, takes four bytes, yields the empty
      object, and leaves the cursor inside what was written: nothing says how long it is. */
  lemma WrongReader(i: nat, j: nat, v: Value, prior: Value, suffix: bytes)
    requires i < |Types()| && j < |Types()| && i != j && Fits(Types()[i], v)
    ensures var b := Encode(Types()[i], v) + suffix;
            Decode(Types()[j], prior, b) == (Object(map[]), TakeInt(b, 4).1)
  {
    hide Types, Ids, CaseFits, EncodeCase, DecodeCase, TakeInt, Aligned, CasesDistinct;
    TableIsSound(i);
    IdsAreApart(i, j);
    WrittenId(Types()[i].cases, v.At("_").n, v, suffix);
    UnknownCase(Types()[j].cases, v.At("_").n, TakeInt(Encode(Types()[i], v) + suffix, 4).1);
  }

  function ResPQ(nonce: bytes, serverNonce: bytes, pq: bytes, fingerprints: seq<Value>): Value {
    Object(map["_" := Number(85337187), "nonce" := Blob(nonce), "server_nonce" := Blob(serverNonce),
               "pq" := Blob(pq), "server_public_key_fingerprints" := Many(fingerprints)])
  }

  lemma ResPQAt(nonce: bytes, serverNonce: bytes, pq: bytes, fingerprints: seq<Value>)
    ensures var v := ResPQ(nonce, serverNonce, pq, fingerprints);
            && v.At("_") == Number(85337187) && v.At("nonce") == Blob(nonce)
            && v.At("server_nonce") == Blob(serverNonce) && v.At("pq") == Blob(pq)
            && v.At("server_public_key_fingerprints") == Many(fingerprints)
            && v.fields.Keys == {"_"} + Names(RES_PQ_FIELDS)
  {
  }

  lemma ResPQFields(v: Value)
    ensures FieldsFit(RES_PQ_FIELDS, v) <==>
              && Fits(Raw(16), v.At("nonce")) && Fits(Raw(16), v.At("server_nonce")) && Fits(Text, v.At("pq"))
              && Fits(List(Long), v.At("server_public_key_fingerprints"))
  {
    hide Fits;
  }

  /** One type in full: which ResPQ objects have a wire form they come back from. */
  lemma ResPQFits(nonce: bytes, serverNonce: bytes, pq: bytes, fingerprints: seq<Value>)
    ensures Fits(RES_PQ_TYPE, ResPQ(nonce, serverNonce, pq, fingerprints)) <==>
              && |nonce| == 16 && |serverNonce| == 16 && |pq| < 0x100_0000
              && |fingerprints| < 0x8000_0000 && ItemsFit(Long, fingerprints)
  {
    hide ResPQ, Distinct, ItemsFit, Names, FieldsFit;
    ExchangeFieldsAreDistinct();
    ResPQAt(nonce, serverNonce, pq, fingerprints);
    var v := ResPQ(nonce, serverNonce, pq, fingerprints);
    ResPQFields(v);
    assert Fits(RES_PQ_TYPE, v) <==> FieldsFit(RES_PQ_FIELDS, v);
  }
}
