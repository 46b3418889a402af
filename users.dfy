/** `backend/src/routes/users.js`: the admin's handlers over the users table,
 *  with the body rules they check first and the guards that keep usernames
 *  unique and stop an admin from deleting or demoting themselves. */
module Users {
  import opened Wrappers
  import opened Strings

  /** A row of the users table; the password is the stored hash. */
  datatype User = User(username: string, password: string, adSoyad: string, role: string)

  const Roller: seq<string> := ["admin", "normal"]

  // --------------------------------------------------------- body rules

  predicate AdKarakteri(c: char)
  {
    'a' <= c <= 'z' || 'A' <= c <= 'Z' || '0' <= c <= '9' || c == '_'
  }

  /** `/^[a-zA-Z0-9_]+$/` */
  predicate AdDeseni(u: string)
  {
    |u| > 0 && forall i :: 0 <= i < |u| ==> AdKarakteri(u[i])
  }

  /** A username the rules accept: 3 to 50 characters of the pattern. */
  predicate KullaniciAdiGecerli(u: string)
  {
    3 <= |u| <= 50 && AdDeseni(u)
  }

  /** A field as the validator sees it: absent is the empty text. */
  function Deger(v: Option<string>): string
  {
    if v.Some? then v.value else ""
  }

  /** The username rules' messages, in the order the chain lists them. */
  function KullaniciAdiHatalari(u: string): seq<string>
  {
    (if 3 <= |u| <= 50 then [] else ["Kullanıcı adı 3-50 karakter olmalı"])
    + (if AdDeseni(u) then [] else ["Kullanıcı adı sadece harf, rakam ve alt çizgi içerebilir"])
  }

  lemma KullaniciAdiHatalariBos(u: string)
    ensures KullaniciAdiHatalari(u) == [] <==> KullaniciAdiGecerli(u)
  {
  }

  /** The body of `POST /api/users`. */
  datatype YeniKullanici = YeniKullanici(
    username: Option<string>, password: Option<string>, adSoyad: Option<string>, role: Option<string>)

  /** The messages of the create rules on the values they check. */
  function KayitHatalari(username: string, password: string, adSoyad: string, role: string): (r: seq<string>)
    ensures r == [] <==> KullaniciAdiGecerli(username) && |password| >= 6 && 0 < |adSoyad| <= 100 && role in Roller
  {
    KullaniciAdiHatalari(username)
    + (if |password| >= 6 then [] else ["Şifre en az 6 karakter olmalı"])
    + (if adSoyad != "" then [] else ["Ad soyad gerekli"])
    + (if |adSoyad| <= 100 then [] else ["Ad soyad çok uzun"])
    + (if role in Roller then [] else ["Geçersiz rol (admin veya normal olmalı)"])
  }

  /** The create rules on a body: the username and the name are trimmed
   *  before they are checked, and an absent field is checked as empty. */
  function CreateHatalari(b: YeniKullanici): seq<string>
  {
    KayitHatalari(Trim(Deger(b.username)), Deger(b.password), Trim(Deger(b.adSoyad)), Deger(b.role))
  }

  /** The body of `PUT /api/users/:id`: every field may be left out. */
  datatype Degisiklik = Degisiklik(username: Option<string>, adSoyad: Option<string>, role: Option<string>)

  /** A sent field after the `trim()` sanitizer. */
  function KirpOpt(v: Option<string>): (r: Option<string>)
    ensures r.Some? <==> v.Some?
  {
    if v.Some? then Some(Trim(v.value)) else None
  }

  /** The update body as the sanitizers leave it for the handler: the
   *  username and the name trimmed, the role as sent. */
  function Kirpilmis(b: Degisiklik): Degisiklik
  {
    Degisiklik(KirpOpt(b.username), KirpOpt(b.adSoyad), b.role)
  }

  /** The messages of the update rules on a sanitised body: a field that is
   *  sent is checked like on create. */
  function UpdateHatalari(b: Degisiklik): (r: seq<string>)
    ensures r == [] <==>
              && (b.username.Some? ==> KullaniciAdiGecerli(b.username.value))
              && (b.adSoyad.Some? ==> 0 < |b.adSoyad.value| <= 100)
              && (b.role.Some? ==> b.role.value in Roller)
  {
    (if b.username.Some? then KullaniciAdiHatalari(b.username.value) else [])
    + (if b.adSoyad.Some? && b.adSoyad.value == "" then ["Ad soyad boş olamaz"] else [])
    + (if b.adSoyad.Some? && |b.adSoyad.value| > 100 then ["Ad soyad çok uzun"] else [])
    + (if b.role.Some? && b.role.value !in Roller then ["Geçersiz rol"] else [])
  }

  /** A sent field that is not empty. */
  predicate Dolu(v: Option<string>)
  {
    v.Some? && v.value != ""
  }

  /** The fields an accepted update writes: the ones sent and not empty. */
  function Uygula(u: User, b: Degisiklik): (r: User)
    ensures r.password == u.password
    ensures r.username == (if Dolu(b.username) then b.username.value else u.username)
    ensures r.adSoyad == (if Dolu(b.adSoyad) then b.adSoyad.value else u.adSoyad)
    ensures r.role == (if Dolu(b.role) then b.role.value else u.role)
  {
    var r := u;
    var r := if Dolu(b.username) then r.(username := b.username.value) else r;
    var r := if Dolu(b.adSoyad) then r.(adSoyad := b.adSoyad.value) else r;
    if Dolu(b.role) then r.(role := b.role.value) else r
  }

  // --------------------------------------------------------- responses

  datatype Cevap =
    | Basarili(status: int, id: int)
    | Hatali(status: int, error: string, message: string, details: seq<string>)

  function Dogrulama(details: seq<string>): Cevap
  {
    Hatali(400, "Validation hatası", "", details)
  }

  const Bulunamadi := Hatali(404, "Kullanıcı bulunamadı", "", [])
  const AdKullanimda := Hatali(400, "Kullanıcı adı kullanımda", "Bu kullanıcı adı zaten mevcut", [])
  const KendiniDusurme := Hatali(400, "İşlem engellendi", "Kendi admin yetkinizi kaldıramazsınız", [])
  const KendiniSilme := Hatali(400, "İşlem engellendi", "Kendinizi silemezsiniz", [])
  const VeriYok := Hatali(400, "Güncelleme verisi yok", "En az bir alan güncellenmelidir", [])

  /** No two rows share a username. */
  ghost predicate AdlarTekil(users: map<int, User>)
  {
    forall i, j :: i in users && j in users && i != j ==> users[i].username != users[j].username
  }

  /** A row whose username no other row has keeps the names unique. */
  lemma Ekle(users: map<int, User>, id: int, u: User)
    requires AdlarTekil(users) && id !in users
    requires forall k :: k in users ==> users[k].username != u.username
    ensures AdlarTekil(users[id := u])
  {
  }

  /** Renaming a row to a name no other row has keeps the names unique. */
  lemma Degistir(users: map<int, User>, id: int, u: User)
    requires AdlarTekil(users) && id in users
    requires forall k :: k in users && k != id ==> users[k].username != u.username
    ensures AdlarTekil(users[id := u])
  {
  }

  // ------------------------------------------------------------ the table

  class UserStore {
    var users: map<int, User>
    var nextId: int

    ghost predicate Valid()
      reads this
    {
      && nextId >= 1
      && (forall id :: id in users ==> 1 <= id < nextId)
      && AdlarTekil(users)
    }

    constructor ()
      ensures Valid() && users == map[]
    {
      users := map[];
      nextId := 1;
    }

    /** Whether any row has this username. */
    predicate AdVar(username: string)
      reads this
    {
      exists id :: id in users && users[id].username == username
    }

    /** Whether a row other than `haric` has this username. */
    predicate AdAlinmis(username: string, haric: int)
      reads this
    {
      exists id :: id in users && id != haric && users[id].username == username
    }

    /** `POST /api/users`, with the password hash as a parameter: the rules,
     *  then the username check, then the insert. */
    method Create(b: YeniKullanici, hash: string) returns (c: Cevap)
      requires Valid()
      modifies this
      ensures Valid()
      ensures CreateHatalari(b) != [] ==> c == Dogrulama(CreateHatalari(b))
      ensures CreateHatalari(b) == [] && old(AdVar(Trim(Deger(b.username)))) ==> c == AdKullanimda
      ensures c.Hatali? ==> users == old(users)
      ensures c.Basarili? ==>
                && c.status == 201 && c.id !in old(users)
                && users == old(users)[c.id := User(Trim(Deger(b.username)), hash, Trim(Deger(b.adSoyad)), Deger(b.role))]
    {
      var hatalar := CreateHatalari(b);
      if hatalar != [] {
        return Dogrulama(hatalar);
      }
      var username := Trim(Deger(b.username));
      if AdVar(username) {
        return AdKullanimda;
      }
      var id := Insert(User(username, hash, Trim(Deger(b.adSoyad)), Deger(b.role)));
      c := Basarili(201, id.value);
    }

    /** `PUT /api/users/:id` by the signed-in user `ben`, on the body the
     *  sanitizers hand over. */
    method Update(id: int, govde: Degisiklik, ben: int) returns (c: Cevap)
      requires Valid()
      modifies this
      ensures Valid()
      ensures var b := Kirpilmis(govde);
              UpdateHatalari(b) != [] ==> c == Dogrulama(UpdateHatalari(b))
      ensures var b := Kirpilmis(govde);
              UpdateHatalari(b) == [] && id !in old(users) ==> c == Bulunamadi
      ensures var b := Kirpilmis(govde);
              (UpdateHatalari(b) == [] && id in old(users) && id == ben && b.role.Some? && b.role.value != "admin")
                ==> c == KendiniDusurme
      ensures c.Hatali? ==> users == old(users)
      ensures var b := Kirpilmis(govde);
              c.Basarili? <==>
                && UpdateHatalari(b) == [] && id in old(users)
                && !(id == ben && b.role.Some? && b.role.value != "admin")
                && !(b.username.Some? && old(AdAlinmis(b.username.value, id)))
                && (Dolu(b.username) || Dolu(b.adSoyad) || Dolu(b.role))
      ensures c.Basarili? ==> c.status == 200 && users == old(users)[id := Uygula(old(users)[id], Kirpilmis(govde))]
      ensures ben in old(users) && old(users)[ben].role == "admin" ==> ben in users && users[ben].role == "admin"
    {
      var b := Kirpilmis(govde);
      var hatalar := UpdateHatalari(b);
      if hatalar != [] {
        return Dogrulama(hatalar);
      }
      if id !in users {
        return Bulunamadi;
      }
      if id == ben && Dolu(b.role) && b.role.value != "admin" {
        return KendiniDusurme;
      }
      if Dolu(b.username) && AdAlinmis(b.username.value, id) {
        return AdKullanimda;
      }
      if !Dolu(b.username) && !Dolu(b.adSoyad) && !Dolu(b.role) {
        return VeriYok;
      }
      var u := Uygula(users[id], b);
      assert forall k :: k in users && k != id ==> users[k].username != u.username by {
        if !Dolu(b.username) {
          assert u.username == users[id].username;
        }
      }
      Degistir(users, id, u);
      users := users[id := u];
      c := Basarili(200, id);
    }

    /** An `INSERT` into the table, which refuses a username that is
     *  already there (the `UNIQUE constraint failed` error). */
    method Insert(u: User) returns (id: Option<int>)
      requires Valid()
      modifies this
      ensures Valid()
      ensures id.None? <==> old(AdVar(u.username))
      ensures id.None? ==> users == old(users)
      ensures id.Some? ==> id.value !in old(users) && users == old(users)[id.value := u]
    {
      if AdVar(u.username) {
        return None;
      }
      assert forall k :: k in users ==> users[k].username != u.username;
      Ekle(users, nextId, u);
      users := users[nextId := u];
      id := Some(nextId);
      nextId := nextId + 1;
    }

    /** `PUT /api/users/:id/password`, with the new hash as a parameter. */
    method ResetPassword(id: int, newPassword: Option<string>, hash: string) returns (c: Cevap)
      requires Valid()
      modifies this
      ensures Valid()
      ensures |Deger(newPassword)| < 6 ==> c == Dogrulama(["Şifre en az 6 karakter olmalı"])
      ensures |Deger(newPassword)| >= 6 && id !in old(users) ==> c == Bulunamadi
      ensures c.Hatali? ==> users == old(users)
      ensures c.Basarili? ==> users == old(users)[id := old(users)[id].(password := hash)]
    {
      if |Deger(newPassword)| < 6 {
        return Dogrulama(["Şifre en az 6 karakter olmalı"]);
      }
      if id !in users {
        return Bulunamadi;
      }
      users := users[id := users[id].(password := hash)];
      c := Basarili(200, id);
    }

    /** `DELETE /api/users/:id` by the signed-in user `ben`: deleting oneself
     *  is refused before the row is looked up. */
    method Delete(id: int, ben: int) returns (c: Cevap)
      requires Valid()
      modifies this
      ensures Valid()
      ensures id == ben ==> c == KendiniSilme
      ensures id != ben && id !in old(users) ==> c == Bulunamadi
      ensures c.Hatali? ==> users == old(users)
      ensures c.Basarili? <==> id != ben && id in old(users)
      ensures c.Basarili? ==> users == map k | k in old(users) && k != id :: old(users)[k]
      ensures ben in old(users) ==> ben in users && users[ben] == old(users)[ben]
    {
      if id == ben {
        return KendiniSilme;
      }
      if id !in users {
        return Bulunamadi;
      }
      users := map k | k in users && k != id :: users[k];
      c := Basarili(200, id);
    }
  }

  /** A username the rules accept is not changed by trimming, so it is
   *  stored as sent. */
  lemma {:induction false} GecerliAdKirpilmaz(u: string)
    requires KullaniciAdiGecerli(u)
    ensures Trim(u) == u
  {
    assert !IsJsSpace(u[0]) && !IsJsSpace(u[|u| - 1]) by {
      assert AdKarakteri(u[0]) && AdKarakteri(u[|u| - 1]);
    }
    TrimOfUntrimmed(u);
  }
}
