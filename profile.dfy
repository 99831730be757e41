/**
 * The `useProfile` hook: the signed-in user's profile, replaced after a
 * successful update, and the avatar upload with its storage path.
 */
module Profile {
  import opened Wrappers
  import opened Text

  datatype UserProfile = UserProfile(userId: string, fullName: Option<string>, avatarUrl: Option<string>)

  /** What the database or the storage gives back for one request. */
  datatype DbReply<T> = Returned(data: T) | DbError

  /** What an operation returns to its caller. */
  datatype Outcome<T> = Saved(data: T) | NoUser | Failed

  /** One column of an update: left out of the update object, or set to a value. */
  datatype Change<T> = Keep | Set(value: T)

  /** The `updates` object: the columns it names and their new values. */
  datatype ProfileUpdate = ProfileUpdate(fullName: Change<Option<string>>, avatarUrl: Change<Option<string>>)

  /** The update request sent: the row filter `user_id = userId` and the updates. */
  datatype UpdateRequest = UpdateRequest(userId: string, updates: ProfileUpdate)

  datatype Toast = Success(message: string) | Error(message: string)

  /** The update `uploadAvatar` sends: only `avatar_url`, set to the public URL. */
  function AvatarUrlUpdate(url: string): ProfileUpdate {
    ProfileUpdate(Keep, Set(Some(url)))
  }

  /** A row of `userId` that holds every column the update sets, with the value it sets. */
  predicate Carries(row: UserProfile, userId: string, u: ProfileUpdate) {
    && row.userId == userId
    && (u.fullName.Set? ==> row.fullName == u.fullName.value)
    && (u.avatarUrl.Set? ==> row.avatarUrl == u.avatarUrl.value)
  }

  /** `name.split(".").pop()`: the last piece of the file name. */
  function Extension(fileName: string): (ext: string)
    ensures '.' !in ext
  {
    LastPiece(fileName, '.')
  }

  /** The last occurrence is the one with no occurrence after it. */
  lemma LastIndexOfIs(s: string, sep: char, i: nat)
    requires i < |s| && s[i] == sep
    requires forall m :: i < m < |s| ==> s[m] != sep
    ensures LastIndexOf(s, sep) == Some(i)
  {
    var r := LastIndexOf(s, sep);
    assert r.Some?;
    assert !(r.value < i) && !(r.value > i);
  }

  /** What follows the last separator, or the whole string without one. */
  function AfterLast(s: string, sep: char): (r: string)
    ensures sep !in r
    ensures |r| <= |s| && r == s[|s| - |r|..]
  {
    match LastIndexOf(s, sep)
    case None => s
    case Some(i) => s[i + 1..]
  }

  /** What follows the last separator is the same in `s` and in what follows any separator of `s`. */
  lemma AfterLastPastSeparator(s: string, sep: char, k: nat)
    requires k < |s| && s[k] == sep
    ensures AfterLast(s, sep) == AfterLast(s[k + 1..], sep)
  {
    var rest := s[k + 1..];
    match LastIndexOf(rest, sep)
    case None =>
      forall m | k < m < |s|
        ensures s[m] != sep
      {
        assert s[m] == rest[m - k - 1];
      }
      LastIndexOfIs(s, sep, k);
    case Some(j) =>
      assert s[k + 1 + j] == rest[j];
      forall m | k + 1 + j < m < |s|
        ensures s[m] != sep
      {
        assert s[m] == rest[m - k - 1];
      }
      LastIndexOfIs(s, sep, k + 1 + j);
      assert s[k + 1 + j + 1..] == rest[j + 1..];
  }

  /** The last piece of a split; there is always at least one. */
  function LastPiece(s: string, sep: char): (r: string)
    ensures sep !in r
  {
    var parts := Split(s, sep);
    parts[|parts| - 1]
  }

  /** Without a separator the split is the string itself. */
  lemma NoSeparatorLastPiece(s: string, sep: char)
    requires IndexOf(s, sep).None?
    ensures LastPiece(s, sep) == s == AfterLast(s, sep)
  {
    assert Split(s, sep) == [s];
  }

  /** Past the first separator, the last piece is the last piece of the rest. */
  lemma SplitLastStep(s: string, sep: char, k: nat)
    requires IndexOf(s, sep) == Some(k)
    ensures LastPiece(s, sep) == LastPiece(s[k + 1..], sep)
  {
    var tail := Split(s[k + 1..], sep);
    var parts := Split(s, sep);
    assert parts == [s[..k]] + tail;
    assert parts[|parts| - 1] == tail[|tail| - 1];
  }

  /** The last piece of a split is what follows the last separator. */
  lemma {:induction false} LastPieceAfterLastSeparator(s: string, sep: char)
    ensures LastPiece(s, sep) == AfterLast(s, sep)
    decreases |s|
  {
    match IndexOf(s, sep)
    case None =>
      NoSeparatorLastPiece(s, sep);
    case Some(k) =>
      LastPieceAfterLastSeparator(s[k + 1..], sep);
      AfterLastPastSeparator(s, sep, k);
      SplitLastStep(s, sep, k);
  }

  /** The extension is the text after the last '.', or the whole name when there is none. */
  lemma ExtensionAfterLastDot(fileName: string)
    ensures Extension(fileName) == AfterLast(fileName, '.')
    ensures LastIndexOf(fileName, '.').None? ==> Extension(fileName) == fileName
    ensures LastIndexOf(fileName, '.').Some? ==> Extension(fileName) == fileName[LastIndexOf(fileName, '.').value + 1..]
  {
    LastPieceAfterLastSeparator(fileName, '.');
  }

  /** `${userId}/avatar.${ext}`. */
  function AvatarPath(userId: string, fileName: string): (path: string)
    ensures path == userId + "/avatar." + Extension(fileName)
    ensures |path| > |userId| && path[|userId|] == '/'
  {
    userId + "/avatar." + Extension(fileName)
  }

  /** An upload with `upsert` replaces whatever the bucket held at that path. */
  function Upsert(bucket: map<string, seq<bv8>>, path: string, file: seq<bv8>): (b: map<string, seq<bv8>>)
    ensures path in b && b[path] == file
    ensures forall p :: p in bucket && p != path ==> p in b && b[p] == bucket[p]
    ensures b.Keys == bucket.Keys + {path}
  {
    bucket[path := file]
  }

  /** Uploading twice to the same path keeps only the second file. */
  lemma UploadOverwrites(bucket: map<string, seq<bv8>>, path: string, first: seq<bv8>, second: seq<bv8>)
    ensures Upsert(Upsert(bucket, path, first), path, second) == Upsert(bucket, path, second)
  {
  }

  /** The first '/' of an avatar path ends the user id. */
  lemma AvatarPathSlash(userId: string, fileName: string)
    requires '/' !in userId
    ensures IndexOf(AvatarPath(userId, fileName), '/') == Some(|userId|)
  {
    var p := AvatarPath(userId, fileName);
    assert forall k :: 0 <= k < |userId| ==> p[k] == userId[k];
  }

  /** Every user's avatars land in their own folder, one per extension. */
  lemma AvatarPathsAreSeparate(u1: string, u2: string, f1: string, f2: string)
    requires '/' !in u1 && '/' !in u2
    requires AvatarPath(u1, f1) == AvatarPath(u2, f2)
    ensures u1 == u2 && Extension(f1) == Extension(f2)
  {
    var p := AvatarPath(u1, f1);
    AvatarPathSlash(u1, f1);
    AvatarPathSlash(u2, f2);
    assert u1 == p[..|u1|] == u2;
    assert Extension(f1) == p[|u1| + 8..] == Extension(f2);
  }

  /** The hook's state. */
  class ProfileStore {
    var user: Option<string>
    var profile: Option<UserProfile>
    var loading: bool
    var bucket: map<string, seq<bv8>>

    constructor (user: Option<string>, bucket: map<string, seq<bv8>>)
      ensures this.user == user && profile.None? && loading && this.bucket == bucket
    {
      this.user := user;
      profile := None;
      loading := true;
      this.bucket := bucket;
    }

    /** The effect on a change of user: no user clears the profile; a user's row replaces it. */
    method OnUser(newUser: Option<string>, reply: DbReply<UserProfile>)
      modifies this
      ensures user == newUser && !loading && bucket == old(bucket)
      ensures newUser.None? ==> profile.None?
      ensures newUser.Some? && reply.Returned? ==> profile == Some(reply.data)
      ensures newUser.Some? && reply.DbError? ==> profile == old(profile)
    {
      user := newUser;
      if newUser.None? {
        profile := None;
      } else if reply.Returned? {
        profile := Some(reply.data);
      }
      loading := false;
    }

    /**
     * `updateProfile`: without a user nothing is sent and nothing is shown.
     * Otherwise the updates go out for the user's row; the returned row,
     * which the database gives back with the sent columns set, replaces the
     * profile, and a toast reports success or failure.
     */
    method UpdateProfile(updates: ProfileUpdate, reply: DbReply<UserProfile>)
      returns (outcome: Outcome<UserProfile>, sent: Option<UpdateRequest>, toast: Option<Toast>)
      requires user.Some? && reply.Returned? ==> Carries(reply.data, user.value, updates)
      modifies this
      ensures user == old(user) && loading == old(loading) && bucket == old(bucket)
      ensures old(user).None? ==> sent.None? && outcome == NoUser && toast.None? && profile == old(profile)
      ensures old(user).Some? ==> sent == Some(UpdateRequest(old(user).value, updates))
      ensures old(user).Some? && reply.Returned? ==>
                && profile == Some(reply.data) && outcome == Saved(reply.data)
                && Carries(profile.value, old(user).value, updates)
                && toast == Some(Success("Profile updated successfully"))
      ensures old(user).Some? && reply.DbError? ==>
                profile == old(profile) && outcome == Failed && toast == Some(Error("Failed to update profile"))
    {
      if user.None? {
        return NoUser, None, None;
      }
      sent := Some(UpdateRequest(user.value, updates));
      match reply {
        case Returned(row) =>
          profile := Some(row);
          outcome := Saved(row);
          toast := Some(Success("Profile updated successfully"));
        case DbError =>
          outcome := Failed;
          toast := Some(Error("Failed to update profile"));
      }
    }

    /**
     * `uploadAvatar`: the file goes to the user's avatar path (overwriting),
     * then an update setting `avatar_url` to the path's public URL is sent.
     * The public URL is returned even when that profile update fails; only a
     * failed upload shows the upload-failure toast.  `publicUrlOf` is the
     * bucket's `getPublicUrl`.
     */
    method UploadAvatar(fileName: string, file: seq<bv8>, uploaded: bool, publicUrlOf: string -> string,
                        updateReply: DbReply<UserProfile>)
      returns (outcome: Outcome<string>, sent: Option<UpdateRequest>, toast: Option<Toast>)
      requires user.Some? && updateReply.Returned? ==>
                 Carries(updateReply.data, user.value, AvatarUrlUpdate(publicUrlOf(AvatarPath(user.value, fileName))))
      modifies this
      ensures user == old(user) && loading == old(loading)
      ensures old(user).None? ==>
                outcome == NoUser && sent.None? && toast.None? && profile == old(profile) && bucket == old(bucket)
      ensures old(user).Some? && !uploaded ==>
                && outcome == Failed && sent.None? && toast == Some(Error("Failed to upload avatar"))
                && profile == old(profile) && bucket == old(bucket)
      ensures old(user).Some? && uploaded ==>
                var path := AvatarPath(old(user).value, fileName);
                && bucket == Upsert(old(bucket), path, file)
                && sent == Some(UpdateRequest(old(user).value, AvatarUrlUpdate(publicUrlOf(path))))
                && outcome == Saved(publicUrlOf(path))
      ensures old(user).Some? && uploaded && updateReply.Returned? ==>
                && profile == Some(updateReply.data)
                && profile.value.avatarUrl == Some(publicUrlOf(AvatarPath(old(user).value, fileName)))
                && toast == Some(Success("Profile updated successfully"))
      ensures old(user).Some? && uploaded && updateReply.DbError? ==>
                profile == old(profile) && toast == Some(Error("Failed to update profile"))
    {
      if user.None? {
        return NoUser, None, None;
      }
      if !uploaded {
        return Failed, None, Some(Error("Failed to upload avatar"));
      }
      var path := AvatarPath(user.value, fileName);
      var url := publicUrlOf(path);
      bucket := Upsert(bucket, path, file);
      var saved;
      saved, sent, toast := UpdateProfile(AvatarUrlUpdate(url), updateReply);
      outcome := Saved(url);
    }
  }
}
