# OpenChemistry client and taskflows, modelled in Dafny

This project models the core of the OpenChemistry Python package. There are three layers:

- **The Jupyter client** (`openchemistry`). It finds and imports molecules by InChI, SMILES, InChIKey or name. It looks up calculations and submits pending ones as a taskflow on a cluster (NERSC `cori`, or a traditional cluster). It trains machine-learning models. It builds the viewer parameters and URLs for structures, vibrations and orbitals, and caches orbital volumes. It parses reaction equations, and it converts Psi4 output (read by cclib) into the platform's CJSON document.
- **The container taskflows** (`taskflows/taskflows`). These pull Docker, Singularity or Shifter images and register their digests. They list the images on a cluster. They run a calculation in a container: they describe the image, stage the input geometry and parameters, build the run command, and ingest the outputs.
- **The legacy template taskflows and the per-code plug-ins** (`taskflows/openchemistry`, `taskflows/taskflows/{psi4,nwchem,chemml}`). These choose images, input file names, run commands and Psi4 input defaults per code and per cluster.

The model keeps the source's structure: one module per source area.

- `Wrappers`, `Text` and `Lists` hold the Python built-ins the code relies on: `split`, `join`, `strip`, `os.path.join`, `rstrip`, `re.sub`, filtering, and a JSON value.
- `Store` is the data server: clusters, queues, images and folders.
- `Images`, `ImageListing`, `ContainerJobs`, `CalculationJob`, `Scheduling` and `Xyz` hold the container taskflows.
- `Templates` and `Plugins` hold the legacy flows and the per-code plug-ins.
- `Calculations`, `Lookup`, `Models`, `Nersc`, `DataProviders`, `Visualization`, `Recipes` and `ClientUtils` hold the client.
- `CclibIo` and `Psi4Reader` hold the output reader.

Calls into the data server, the cluster scheduler, hashing, URL encoding, the environment and the structure resolver are explicit parameters of the functions that use them. Each operation is a pure function over immutable values. Where the source loops and mutates, a method with loop invariants is proved equal to the function.

## Model

| member | source | states |
|---|---|---|
| Images.SplitImage | taskflows/taskflows/utils/list.py:9-13 | the repository is the text before the first `:` and holds no `:`; the tag is `latest` when there is no `:`, otherwise the second `:`-separated segment; no input fails |
| Images.ParseImageName | openchemistry/_utils.py:125-135 | two or more colons are rejected; a name without `:` gets tag `latest`; otherwise `repository:tag` rebuilds the input and neither part holds `:` |
| Images.ParseImageNameInverse | openchemistry/_utils.py:132-133 | formatting a colon-free repository and tag as `repository:tag` and parsing it gives them back |
| Images.CheckImageUri | taskflows/taskflows/container_pull_taskflow.py:245-255 | a missing or empty URI is rejected as empty; a singularity URI must contain `.sif`, any other runtime's must contain `:`; both directions stated |
| Images.ExtractDigest | taskflows/taskflows/container_pull_taskflow.py:258-263 | singularity always yields a slash-free base name; any other runtime yields the text between the first and second `:`, and fails exactly when there is no `:` |
| Images.CheckedUriHasDigest | taskflows/taskflows/container_pull_taskflow.py:233-237 | a URI that passed the validity check always yields a digest |
| Images.SifPath | taskflows/taskflows/utils/pull.py:16-35 | the sif file is `<hex after ':'>.sif` under `~/.oc/singularity`; a digest without `:` fails |
| Images.SifPathBasename | taskflows/taskflows/utils/pull.py:34-35 | the sif file's base name is the hex part of the digest plus `.sif` |
| Images.PullSingularity | taskflows/taskflows/utils/pull.py:31-42 | the reported URI is the sif path; the build command, from `docker://repo@digest`, runs exactly when the file does not exist yet |
| Images.PullDocker | taskflows/taskflows/utils/pull.py:45-57 | the image is addressed and pulled as `repo@digest` |
| Images.PullShifter | taskflows/taskflows/utils/pull.py:60-68 | the image is addressed as `repo:tag` and its size is reported as 0 |
| Images.Pull | taskflows/taskflows/utils/pull.py:103-119 | `docker`, `singularity` and `shifter` each reach their own pull; any other runtime is rejected, as the argument parser's `choices` reject it |
| Images.Descriptor | taskflows/taskflows/utils/pull.py:71-78 | the descriptor holds exactly repository, tag, digest, imageUri and size, with the given values |
| Images.SingularityDigestRoundTrip | taskflows/taskflows/utils/pull.py:31-42 | the sif path the pull script reports passes the taskflow's URI check, and the digest the taskflow extracts from it is the hex part of the pulled digest |
| Images.DockerDigestRoundTrip | taskflows/taskflows/utils/pull.py:45-57 | the docker URI `repo@digest` passes the URI check and reads back as the hex part of the digest, for a colon-free repository |
| Images.ShifterRecordsTag | taskflows/taskflows/container_pull_taskflow.py:258-263 | for shifter the URI is `repo:tag`, so the value recorded as the digest is the tag |
| ImageListing.DockerLine | taskflows/taskflows/utils/list.py:86-120 | a line with fewer than 5 words gives nothing; an image is reported iff inspecting its third word gives a record with tags and digests; its repository comes from the first tag, its digest is the text after the first `:` of the first digest, its size is the reported size |
| ImageListing.ListDocker | taskflows/taskflows/utils/list.py:76-122 | the header line is dropped and each remaining line contributes its image, if any, in order |
| ImageListing.DockerDigestIsHex | taskflows/taskflows/utils/list.py:111 | a listed docker digest holds no `:` |
| ImageListing.SingularityFile | taskflows/taskflows/utils/list.py:46-71 | only `.sif` names are considered and those lacking the `from` label are skipped; the digest is the name without `.sif` and repository/tag come from the label |
| ImageListing.ListSingularity | taskflows/taskflows/utils/list.py:42-73 | the k-th listed image is the image of the k-th directory entry that yields one, in directory order, and every entry that yields an image is listed |
| ImageListing.ListedSifMatchesPull | taskflows/taskflows/utils/list.py:46-51 | a sif file written by the pull script is listed with the digest that the pull taskflow extracts from its path |
| ImageListing.ShifterLine | taskflows/taskflows/utils/list.py:131-151 | a line yields an image iff it has at least 6 words; repository/tag split the sixth word, the digest is its lookup and the size is 0 |
| ImageListing.ListShifter | taskflows/taskflows/utils/list.py:125-153 | the k-th listed image is the image of the k-th output line that yields one, in line order, and every such line is listed |
| ImageListing.ListImages | taskflows/taskflows/utils/list.py:164-176 | `singularity`, `shifter` and `docker` are each listed by their own lister; any other runtime is rejected, as the argument parser's `choices` reject it |
| ImageListing.ImagesToRegister | taskflows/taskflows/container_list_taskflow.py:221-232 | exactly the listed images whose repository is in the five-entry allow-list, in listing order and with multiplicity; skipping does not stop the loop |
| ContainerJobs.PullJobParameters | taskflows/taskflows/container_pull_taskflow.py:74-106 | the runtime passes through unchanged; NERSC alone adds nodes 1, queue `debug`, constraint `haswell` and the account; demo alone adds the one setup command |
| Scheduling.JobParameters | taskflows/taskflows/container_pull_taskflow.py:79-93 | every job carries its taskflow id; only a NERSC cluster adds scheduler fields: one node, queue `debug`, constraint `haswell` and the account |
| Scheduling.SetupCommands | taskflows/taskflows/openchemistry_taskflow.py:129-152 | only the demo deployment gets setup commands, exactly the one `source scl_source enable python27` |
| ContainerJobs.PullJob | taskflows/taskflows/container_pull_taskflow.py:109-140 | commands are the setup commands, the pull run and `rm pull.py`; the name is `desc_` plus the sanitised run command; input and output bind the same folder at `.` |
| ContainerJobs.PullCommandArguments | taskflows/taskflows/container_pull_taskflow.py:116-117 | the shell reads the pull command as `python pull.py -r R -t T -c C` when R, T and C are single words |
| ContainerJobs.PullPostprocess | taskflows/taskflows/container_pull_taskflow.py:208-237 | a missing `pull.json`, or one with other than one file, fails and removes nothing; otherwise the folder is removed, and the image is registered iff the reported URI is valid, with the digest extracted from it |
| ContainerJobs.DockerPullRegistersDigest | taskflows/taskflows/container_pull_taskflow.py:233-240 | pulling with docker and post-processing the reported URI registers the hex part of the pulled digest |
| ContainerJobs.SingularityPullRegistersDigest | taskflows/taskflows/container_pull_taskflow.py:233-240 | the same round trip through the sif file name for singularity |
| ContainerJobs.ListJobParameters | taskflows/taskflows/container_list_taskflow.py:75-101 | the runtime passes through unchanged; NERSC alone adds the scheduler fields; demo alone adds the setup command |
| ContainerJobs.ListJob | taskflows/taskflows/container_list_taskflow.py:104-133 | commands are setup, `python list.py -c C` and `rm list.py`; the name is `desc_` plus the sanitised run command; one folder bound at `.` both ways |
| ContainerJobs.ListCommandArguments | taskflows/taskflows/container_list_taskflow.py:109 | the shell reads the list command as `python list.py -c C` |
| ContainerJobs.ListPostprocess | taskflows/taskflows/container_list_taskflow.py:199-232 | a missing `list.json`, or one with other than one file, fails and removes nothing; otherwise the folder is removed and the allow-listed images are registered in order |
| ContainerJobs.ListRegistersAllowListed | taskflows/taskflows/container_list_taskflow.py:221-232 | every registered image is allow-listed, and every allow-listed listed image is registered as often as it was listed |
| CalculationJob.GetDigest | taskflows/taskflows/openchemistry_taskflow.py:604-617 | fails iff no server image has the repository and tag; otherwise returns the digest of the first such image |
| CalculationJob.EnsureImageOnServer | taskflows/taskflows/openchemistry_taskflow.py:586-601 | fails with "not found" iff no image matches repository, tag and digest; any other failure names the missing runtime |
| CalculationJob.EnsureImageFirstMatch | taskflows/taskflows/openchemistry_taskflow.py:586-601 | passes iff the first record matching repository, tag and digest offers the runtime |
| CalculationJob.GetJobParameters | taskflows/taskflows/openchemistry_taskflow.py:121-167 | the runtime defaults to docker and NERSC forces shifter; a missing digest is looked up; NERSC alone carries the scheduler fields; demo uses host `dev_job_data`, job dir `{{job._id}}` and one setup command, others `$(pwd)` and an empty job dir; the guest dir is `/data` |
| CalculationJob.CreateDescriptionJob | taskflows/taskflows/openchemistry_taskflow.py:170-223 | succeeds iff the parameters resolve and the image is on the server; commands set `IMAGE_NAME` then run the description; the name is `desc_` plus the sanitised repository; one folder bound at `.` |
| CalculationJob.FetchGeometries | taskflows/taskflows/openchemistry_taskflow.py:313-332 | one geometry per calculation in order, from the geometry path when given, else the molecule; any failed fetch fails the stage |
| CalculationJob.SetupInput | taskflows/taskflows/openchemistry_taskflow.py:290-364 | missing or empty calculation lists fail; it fails iff some calculation's parameters (missing as `{}`) differ from the first's; otherwise all share the staged parameters and geometry i is named `geometry_<i+1>.<fmt>` |
| CalculationJob.SetupInputOnCluster | taskflows/taskflows/openchemistry_taskflow.py:278-292 | a cluster that is not `cori` and has no id fails as an invalid configuration before anything else; `cori` is fetched or created; otherwise the result is the staging of the inputs on the resolved cluster |
| CalculationJob.OutputBindings | taskflows/taskflows/openchemistry_taskflow.py:397-418 | outputs bind `./output` and the run folder at `.` excluding input/output/scratch; a `./scratch` binding is added iff scratch is kept |
| CalculationJob.CreateRunJob | taskflows/taskflows/openchemistry_taskflow.py:368-487 | fails iff the parameters fail or the runtime has no bind flag; otherwise `mkdir output`, `mkdir scratch` and the run command, input bound at `./input`, the name `run_` plus the sanitised repository |
| CalculationJob.ArgumentLayout | taskflows/taskflows/openchemistry_taskflow.py:383-395 | the container receives `-p <params> -s <scratch>` followed by exactly N `-g geometry_i -o output_i` pairs, i = 1..N in order, under the job's input and output directories |
| CalculationJob.RunJobCommandWords | taskflows/taskflows/openchemistry_taskflow.py:425-455 | the shell reads the run command as runtime, bind flag and mount, image and arguments (shifter: `--image=… --entrypoint --`) |
| CalculationJob.ArgumentsNameStagedFiles | taskflows/taskflows/openchemistry_taskflow.py:361 | the i-th `-g` argument names the geometry file `setup_input` staged for calculation i, and the i-th `-o` argument names `output_<i+1>` |
| CalculationJob.NumberedNamesDistinct | taskflows/taskflows/openchemistry_taskflow.py:394-395 | distinct positions get distinct numbered file names |
| CalculationJob.CollectOutputs | taskflows/taskflows/openchemistry_taskflow.py:536-554 | calculation i gets the single file of the first item named `output_<i+1>.<fmt>`; the first missing item or item with other than one file stops the loop |
| CalculationJob.PostprocessJob | taskflows/taskflows/openchemistry_taskflow.py:512-583 | the input folder is always removed, scratch iff not kept and run only on success; each calculation's update targets the i-th id with its own output, asks for bond detection, is public, records the code unwrapped from a dictionary, and carries the scratch id only when kept |
| CalculationJob.RecordedCode | taskflows/taskflows/openchemistry_taskflow.py:566-569 | a dictionary `code` metadata is replaced by its own `code` entry (null when absent); any other value is recorded as it is |
| Store.GetOrCreate | taskflows/openchemistry/__init__.py:83-102 | when some record matches, the store is unchanged and the first match is returned; when none does, exactly the new record is appended and returned |
| Store.GetOrCreateIdempotent | taskflows/openchemistry/__init__.py:83-102 | a second get-or-create after the first changes nothing and returns the same record |
| Store.GetCori | taskflows/taskflows/__init__.py:93-112 | the result is always a `newt` cluster named `cori`; an existing one is returned with the store unchanged, otherwise one with host `cori` is appended |
| Store.GetCoriReturnsFirst | taskflows/taskflows/__init__.py:98-100 | the first `cori` cluster in store order is the one returned |
| Store.GetCoriIdempotent | taskflows/taskflows/__init__.py:93-112 | calling `_get_cori` again on the resulting store returns the same cluster and posts nothing |
| Store.ResolveCluster | taskflows/taskflows/container_pull_taskflow.py:156-160 | a cluster named `cori` is replaced by the fetched-or-created `cori`; any other cluster must carry an id and is used as given; a non-`cori` cluster without an id is rejected |
| Store.ResolveClusterStable | taskflows/taskflows/container_list_taskflow.py:148-152 | resolving the same cluster again on the resulting store gives the same store and cluster id |
| Store.FetchOrCreateQueue | openchemistry/_utils.py:12-22 | the result is named `oc_queue`; an existing one is returned with the store unchanged, otherwise one with maxRunning 5 is appended |
| Store.SingleFileRule | taskflows/taskflows/container_pull_taskflow.py:208-219 | the first item with the name decides: missing name fails as missing, exactly one file succeeds with that file, any other count fails with the count |
| Store.FindSingleFile | taskflows/taskflows/container_list_taskflow.py:199-210 | the scanning loop that stops at the first item with the name agrees with the single-file rule |
| Nersc.FetchCoriCluster | openchemistry/nersc.py:17-28 | the result is a `newt` cluster named `cori`; the store is either unchanged or extended by exactly the created cluster |
| Nersc.FetchCoriAgreesWithTaskflow | openchemistry/nersc.py:17-28 | the client's filtered lookup and the taskflow's scanning `_get_cori` return the same cluster and store |
| Nersc.FetchCoriReturnsExisting | openchemistry/nersc.py:25-26 | the first existing `cori` cluster is returned and nothing is posted |
| Nersc.FetchCoriCreatesOnlyWhenMissing | openchemistry/nersc.py:6-15 | the store changes iff no `cori` cluster exists, and then the created cluster has host, name `cori` and type `newt` |
| Templates.TemplateClass | taskflows/taskflows/__init__.py:359-363 | the cluster named `cori` is NERSC, `demo_cluster` is demo, every other name (or none) is ec2 |
| Templates.CreateJob | taskflows/taskflows/__init__.py:272-371 | the job is named `<code>_run`, binds the input folder at `.`, has no outputs and runs the plug-in's commands for the dispatched cluster; only NERSC jobs carry the scheduler fields; NERSC fails for every plug-in but NWChem |
| Templates.Ec2JobIsDemoJob | taskflows/taskflows/__init__.py:76-77 | for the cjson package an ec2 job is exactly the demo job |
| Templates.GeometryPrecedence | taskflows/taskflows/__init__.py:157-217 | the geometry comes from the first of: the explicit input calculation, the first optimisation match (only when optimising), the best geometry; otherwise from the molecule |
| Templates.ExplicitInputWins | taskflows/taskflows/__init__.py:167-170 | an explicit `properties.input.calculationId` is used whatever else exists |
| Templates.OptimizedQuery | taskflows/taskflows/__init__.py:172-191 | the optimisation query names the molecule and `optimizations`, plus basis, functional and theory exactly when given |
| Templates.WithOptimization | taskflows/taskflows/__init__.py:206-211 | `optimization` is appended only when absent, and is present afterwards |
| Templates.WithOptimizationIdempotent | taskflows/openchemistry/__init__.py:196-201 | appending twice changes nothing, and `optimization` occurs once unless it already occurred |
| Templates.TypeFlags | taskflows/taskflows/__init__.py:235-241 | every calculation type, and nothing else, becomes a True flag |
| Templates.SetupParams | taskflows/taskflows/__init__.py:235-258 | keys are the types, `optimization` when forced, and basis/functional/theory when given; the basis is kept as is, functional and theory are lowercased, everything else is True |
| Templates.QueryAgreesWithParams | taskflows/taskflows/__init__.py:178-188 | the optimisation query and the input parameters carry the same basis, functional and theory |
| Templates.SetupInputTemplate | taskflows/taskflows/__init__.py:147-270 | a cluster that is not `cori` and has no id is rejected, and so is a missing calculation id; `cori` is fetched or created; the geometry source follows the precedence and is recorded iff it is a calculation; the input is `oc.<code>.in` with the cjson, or for the xyz package the stripped xyz text |
| Templates.MoleculeGeometryIsOptimized | taskflows/taskflows/__init__.py:205-211 | falling back to the molecule's geometry always puts the True `optimization` flag in the parameters |
| Templates.MoleculeGeometryRunsPsi4Optimize | taskflows/openchemistry/psi4/__init__.py:20-25 | such parameters make psi4 run an `optimize` task |
| Templates.SetupTheoryReachesPsi4 | taskflows/openchemistry/psi4/__init__.py:27-32 | a `dft` theory stored in any case reaches psi4 lowercased and selects the functional (the default `b3lyp` when none is given) |
| Templates.Ingest | taskflows/taskflows/__init__.py:424-440 | only selected items are ingested, in order; the first selected item with other than one file stops ingestion with its name and count, after the earlier ones |
| Templates.PostprocessTemplate | taskflows/openchemistry/__init__.py:419-435 | the loop's PUTs carry exactly the files `Ingest` selects, all to the template's calculation and all public |
| Templates.IngestLoop | taskflows/openchemistry/__init__.py:422-435 | the loop stops at the first flagged item without exactly one file; before that, it PUTs the single file of every flagged item, in order, each public and on the calculation |
| Templates.FlagsAreSelection | taskflows/openchemistry/__init__.py:420-423 | flags set exactly for the selected names pick the same files as the selection does, and a bad flagged item is exactly a bad selected output |
| Templates.IngestCompletes | taskflows/taskflows/__init__.py:428-432 | with no bad selected item every selected file is ingested |
| Templates.IngestStopsAt | taskflows/taskflows/__init__.py:428-432 | the first bad selected item stops ingestion right there |
| Plugins.ImageOfCode | taskflows/taskflows/psi4/__init__.py:8-14 | each plug-in runs the `latest` tag of the openchemistry repository named after its code (`nwchem-json` for NWChem) |
| Plugins.SelectOutputFiles | taskflows/taskflows/psi4/__init__.py:60-65 | one flag per file name, True iff the name ends with the code's suffix (`.json` for NWChem, `.out` otherwise) |
| Plugins.JobCommands | taskflows/openchemistry/psi4/__init__.py:60-75 | off NERSC a pull and a run; on NERSC NWChem's single `srun` command, every other plug-in fails as not configured |
| Plugins.RunCommandWords | taskflows/taskflows/__init__.py:79-88 | the shell reads a docker pull of the image and then a docker run of that same image on the input file, which the cjson psi4/ChemML defaults reach as `/data/{{job._id}}/<input>` |
| Plugins.RunInputName | taskflows/taskflows/__init__.py:86 | the run's last word names the input file |
| Plugins.Ec2RunsDemoCommands | taskflows/taskflows/__init__.py:76-77 | for the cjson package the ec2 commands are the demo commands |
| Plugins.Ec2AndDemoShareImageAndInput | taskflows/openchemistry/chemml/__init__.py:22-34 | for the xyz package ec2 and demo pull the same image and differ only in the mount and working-directory words |
| Plugins.NerscCommandWords | taskflows/taskflows/nwchem/__init__.py:42-45 | NWChem on NERSC runs `/usr/bin/srun -N 1 -n 32 <nwchem path> <input>`, the path defaulting to `nwchem` |
| Plugins.Psi4Input | taskflows/openchemistry/psi4/__init__.py:14-37 | the task is optimize iff `optimization` is given, else frequency iff `vibrational` is given, else energy; `dft` in any case selects the functional with `ks`, other theories `hf`; the prefix is `r` iff the multiplicity is 1; defaults are charge 0, multiplicity 1, scf, b3lyp, cc-pvdz |
| Plugins.Psi4Defaults | taskflows/taskflows/psi4/__init__.py:21-32 | empty parameters give an scf energy run with reference `rhf`, charge 0, multiplicity 1 and basis cc-pvdz |
| Plugins.Psi4Dft | taskflows/taskflows/psi4/__init__.py:34-44 | a `dft` theory gives the functional and reference `rks` for a singlet, `uks` otherwise |
| Xyz.XyzBody | taskflows/openchemistry/utils/__init__.py:4-10 | text of at most two lines yields the empty string, and every newline in the result is followed by two spaces |
| Xyz.XyzBodyLines | taskflows/openchemistry/__init__.py:209-212 | splitting the result on the joiner gives back exactly the lines after the first two, in order |
| Xyz.XyzBodyIgnoresHeader | taskflows/openchemistry/utils/__init__.py:8 | the atom count and comment lines are dropped whatever they hold |
| Calculations.SeedTask | openchemistry/_calculation.py:41-54 | `energy`, `optimize` and `frequencies` add the task name to the parameters unless the caller already set a task; every other parameter is kept as given |
| Calculations.SeedTaskKeepsGivenTask | openchemistry/_calculation.py:41-54 | seeding parameters that already name a task changes nothing: the first task chosen wins |
| Calculations.Needs3dCoords | openchemistry/_calculation.py:325-336 | an image needs 3D coordinates exactly when its name contains `psi4` or `nwchem` |
| Calculations.CheckRequiredCoords | openchemistry/_calculation.py:345-355 | when 3D coordinates are needed, 3D generation is requested for exactly the molecules that lack them, and the call raises exactly when that set is non-empty; otherwise nothing is requested |
| Calculations.FetchQuery | openchemistry/_calculation.py:132-147 | the lookup query holds the molecule id, the parameters' hash, the image name normalised to `repository:tag` and, only when a truthy geometry is given, the geometry's hash; a malformed image name is an error |
| Calculations.FetchQueryDefaultTag | openchemistry/_calculation.py:132-147 | a bare repository and its `:latest` name produce the same lookup query |
| Calculations.SubmitCluster | openchemistry/_calculation.py:152-164 | an explicit cluster id wins; otherwise the NERSC deployment uses `cori`; otherwise the first traditional cluster; with none of these the submission fails |
| Calculations.SubmitCalculations | openchemistry/_calculation.py:152-211 | the launch names exactly the pending calculation ids, the created taskflow, the parsed image, the run parameters (empty when not given), the chosen cluster and the fetched-or-created queue; it fails iff no cluster can be chosen or the image name is malformed |
| Calculations.Pairs | openchemistry/_calculation.py:262-267 | molecules are paired position by position with their geometries, stopping at the shorter list; with no geometries every molecule is paired with none |
| Calculations.PendingIdsCount | openchemistry/_calculation.py:265-288 | at most one pending id per molecule, and none exactly when no molecule needs a new calculation |
| Calculations.FetchOrSubmit | openchemistry/_calculation.py:252-304 | a failed coordinates check yields an empty result; otherwise one calculation per molecule is returned, and a submission, when made, carries exactly the pending ids |
| Calculations.FetchOrSubmitPositions | openchemistry/_calculation.py:262-302 | each molecule gets its existing calculation when one is found and creation is not forced; otherwise a new calculation that is tagged with the submitted taskflow |
| Calculations.PendingNonEmpty | openchemistry/_calculation.py:270-274 | any molecule that needs a new calculation makes the pending list non-empty |
| Calculations.SubmitsIffPending | openchemistry/_calculation.py:290-302 | a taskflow is submitted if and only if some molecule needed a new calculation |
| Calculations.ForceCreatesAll | openchemistry/_calculation.py:267-274 | with `force`, every molecule gets a new pending calculation: the k-th pending id is the one posted for the k-th pair, so a molecule listed twice gets two distinct calculations when posts yield fresh ids |
| Calculations.FetchOrSubmitEmpty | openchemistry/_calculation.py:252-304 | no molecules means no calculations and no submission |
| Calculations.FetchOrSubmitCalculations | openchemistry/_calculation.py:252-304 | the loop-based version returns exactly the reference result |
| Calculations.LookUpOrCreate | openchemistry/_calculation.py:262-288 | the loop picks, for every molecule in order, the existing or newly created calculation, records which were created, and collects the pending ids in order |
| Calculations.AttachTaskflow | openchemistry/_calculation.py:290-302 | after submission exactly the newly created calculations carry the taskflow id; found calculations are unchanged |
| Lookup.IsInchiKeyAsWritten | openchemistry/api.py:15-19 | every intended key passes, and whatever passes has 27 characters, a dash at index 25 and key characters up to its last one |
| Lookup.InchiKeyTestsDiffer | openchemistry/api.py:15-19 | the key test as written accepts exactly the corrected test's keys plus the 27-character strings whose last character is a newline in place of the final key character |
| Lookup.InchiKeyNewlineAccepted | openchemistry/api.py:15-19 | a concrete string ending in `-` and a newline passes the test as written and fails the corrected one |
| Lookup.InchiKeyHasNoSpace | openchemistry/api.py:15-19 | an accepted InChIKey has no whitespace, newline or slash, so it is safe to place in a URL path |
| Lookup.FindMolecule | openchemistry/api.py:21-57 | InChI is searched first, then SMILES; otherwise an identifier passing the InChIKey test as written is looked up directly, falling back to the resolver only on not-found; any other identifier goes to the resolver; no identifier at all is an error |
| Lookup.ByIdentifier | openchemistry/api.py:29-57 | a key is fetched from the store and only a 404 falls back to the resolver, any other HTTP error is raised; a non-key identifier goes to the resolver when non-empty, and an empty one finds nothing |
| Lookup.FindMoleculeCorrected | openchemistry/api.py:21-36 | with the intended key test, the identifier case is the same key-or-resolver lookup; every other case is unchanged |
| Lookup.FindMoleculeCorrectionDiffers | openchemistry/api.py:29-30 | the program and its correction agree except on an identifier only the test as written takes for a key, which the program fetches from the store and the correction sends to the resolver |
| Lookup.FindMoleculeOrFail | openchemistry/api.py:115-119 | succeeds exactly when a molecule is found, with that molecule; nothing found is a not-found error; lookup errors pass through |
| Lookup.ApiFindStructure | openchemistry/api.py:121-137 | a calculation query yields a calculation result, failing when the molecule has no calculation; otherwise the found molecule itself |
| Lookup.Reinterpret | openchemistry/public_api.py:48-51 | a SMILES argument that starts with `InChI=` is treated as InChI |
| Lookup.ImportParams | openchemistry/public_api.py:46-68 | exactly one of SMILES, InChI, CJSON is sent, in that priority, with `InChI=`-prefixed SMILES sent as InChI; nothing to import is an error |
| Lookup.ApiImportParams | openchemistry/api.py:91-113 | the same choice plus the `generate3D` flag, failing in the same cases |
| Lookup.InchiAsSmilesIsInchi | openchemistry/api.py:93-95 | importing an `InChI=` string passed as SMILES is the same as importing it as InChI |
| Lookup.FindByInchiOrSmiles | openchemistry/public_api.py:70-86 | InChI is searched before SMILES; the first hit is returned, no hit names the key that was searched, and neither key given is an error |
| Lookup.MoleculeOrCalculation | openchemistry/public_api.py:89-106 | a molecule query returns the molecule; a calculation query returns the molecule's calculation, or nothing when it has none |
| Lookup.PublicFindStructure | openchemistry/public_api.py:109-143 | no identifier is an error; InChI or SMILES go through the direct search; otherwise the identifier is tried as a key when it passes the InChIKey test as written, and the rest follows the identifier lookup |
| Lookup.PublicByIdentifier | openchemistry/public_api.py:118-143 | a found key gives the molecule or its calculation; a calculation query not answered by the key gives nothing; the call fails iff the key lookup raises a non-404 error or, for a molecule query without a found key, the resolver finds nothing; any molecule returned came from the key lookup or the resolver |
| Lookup.PublicFindStructureCorrected | openchemistry/public_api.py:109-143 | with the intended key test, the identifier case is the same identifier lookup; every other case is unchanged |
| Lookup.PublicFindStructureCorrectionDiffers | openchemistry/public_api.py:118-119 | the program and its correction agree except on an identifier only the test as written takes for a key |
| Lookup.InchiLookupsAgree | openchemistry/public_api.py:70-86 | the two client APIs find the same molecule for the same InChI |
| Lookup.MonitorIds | openchemistry/api.py:148-161 | the k-th monitored id is the taskflow id of the k-th result that names one, in result order; an id is monitored iff some result names it; none is null |
| Lists.FilterMapPicks | openchemistry/api.py:151-159 | filtering keeps, in position order, exactly the values found at the positions where one is found |
| Lists.FilterMapMembership | openchemistry/api.py:151-159 | a value is kept iff it is found at some position |
| Lists.FilterMapTotal | openchemistry/api.py:151-159 | where every position yields a value, all of them are kept, in order |
| Lookup.MonitorKeepsEveryId | openchemistry/api.py:148-161 | when every result names a taskflow, all ids are monitored in order |
| Lookup.Ids | openchemistry/api.py:163-181 | the queue lists one taskflow id per entry, in order |
| Lookup.QueueOrder | openchemistry/api.py:163-181 | the queue listing shows the running taskflows first and then the pending ones, each in queue order |
| Lookup.QueueOrderShape | openchemistry/api.py:173-179 | the running group holds exactly the running entries and the pending group exactly the pending ones |
| Recipes.StripEach | openchemistry/recipes.py:10-11 | every species has surrounding whitespace removed, one per piece |
| Recipes.Parse | openchemistry/recipes.py:6-11 | an equation parses iff it has exactly one `=>`, otherwise the unpacking fails with the number of sides; each side has at least one species and no species contains `+`, `=>` or surrounding space |
| Recipes.SideSpecies | openchemistry/recipes.py:10-11 | a side with k `+` signs gives k + 1 species |
| Recipes.Equation | openchemistry/recipes.py:21-23 | the equation text of a well-formed reaction parses back to that reaction |
| Recipes.ReparseEquation | openchemistry/recipes.py:6-23 | the equation text of any parsed reaction parses to the same reaction |
| ClientUtils.CamelToSpace | openchemistry/_utils.py:106-123 | the output is empty iff the input is, and starts with the input's first letter upper-cased |
| ClientUtils.CamelToSpaceOnlyInsertsSpaces | openchemistry/_utils.py:106-123 | apart from spaces, the output is the input with its first letter capitalised |
| ClientUtils.CamelToSpaceCountsBreaks | openchemistry/_utils.py:106-123 | exactly one space is inserted at each lower-to-upper boundary |
| ClientUtils.CamelToSpaceWithoutBreaks | openchemistry/_utils.py:106-123 | a name where no capital letter follows a lower-case one or, past the start, precedes one (one word, an all-capitals abbreviation) comes back only with its first letter upper-cased |
| ClientUtils.CamelToSpaceExamples | openchemistry/_utils.py:106-123 | `aB` becomes `A B`, and only a lower-to-upper boundary breaks (`ABc` becomes `A Bc`) |
| ClientUtils.OrbitalIndex | openchemistry/_utils.py:56-81 | a numeric orbital is used as given; `homo` and `lumo` in any case need an electron count and fail without one; any other name is unsupported |
| ClientUtils.FirstCountFound | openchemistry/_utils.py:69-72 | the electron count is the first one present, and missing only when none is present |
| ClientUtils.LumoFollowsHomo | openchemistry/_utils.py:76-79 | the LUMO index is one above the HOMO index |
| ClientUtils.HomoIsLastOccupied | openchemistry/_utils.py:76-77 | for e ≥ 0 electrons, the HOMO is the last orbital that doubly occupied orbitals fill: 2·(homo+1) ≤ e < 2·(homo+1)+2 |
| Text.Lower | openchemistry/io/psi4.py:67-71 | lower-casing maps each character and keeps the length |
| Text.LowerIdempotent | openchemistry/io/psi4.py:67-71 | lower-casing twice is lower-casing once |
| Text.RStripSlash | openchemistry/_data.py:89-91 | the result is the longest prefix that does not end in `/`; only trailing slashes are removed |
| Text.Sanitize | taskflows/taskflows/container_pull_taskflow.py:125 | every non-alphanumeric character becomes `_`, the rest are kept |
| Text.SanitizeSafe | taskflows/taskflows/container_pull_taskflow.py:125 | a sanitised name holds only alphanumerics and `_`, and sanitising again changes nothing |
| DataProviders.Get | openchemistry/_data.py:35-38 | the cache misses iff no entry has the key, and otherwise returns that key's volume |
| DataProviders.Put | openchemistry/_data.py:44 | storing an existing key replaces its value in place; a new key is appended; other entries are untouched |
| DataProviders.Kept | openchemistry/_data.py:41-43 | a full cache drops its oldest entry before the store; a cache with room keeps all |
| DataProviders.SetKeepsValid | openchemistry/_data.py:40-44 | a cache keeps distinct keys and never holds more than five volumes |
| DataProviders.GetAfterSet | openchemistry/_data.py:40-44 | a volume just stored is found |
| DataProviders.SetChangesOnly | openchemistry/_data.py:40-44 | storing one volume leaves every other key's lookup unchanged, except the oldest when it is evicted |
| DataProviders.FullCacheEvictsOldest | openchemistry/_data.py:41-43 | storing a new key into a full cache forgets the oldest one |
| DataProviders.LoadOrbital | openchemistry/_data.py:62-68 | a cache hit reuses the stored cube; a miss computes it and caches it; either way the CJSON gains `cube` and keeps every other key |
| DataProviders.LoadOrbitalTwiceComputesOnce | openchemistry/_data.py:62-68 | loading the same orbital twice computes it once, unless the computed cube is null |
| DataProviders.FetchOnce | openchemistry/_data.py:101-113 | a calculation's data is fetched only when not yet held, and the fetched value is then kept |
| DataProviders.FetchedAtMostOnce | openchemistry/_data.py:101-113 | after one access has fetched a non-null value, the next access fetches nothing |
| DataProviders.CjsonVibrations | openchemistry/_data.py:55-60 | the stored vibrations are returned, or empty mode, intensity and frequency lists when there are none |
| DataProviders.ProviderUrl | openchemistry/_data.py:70-72 | in-memory and Avogadro providers have no URL; molecules and calculations get `<app url without trailing slashes>/molecules/<id>` or `/calculations/<id>` |
| DataProviders.ProviderUrlIgnoresTrailingSlash | openchemistry/_data.py:89-91 | a trailing slash on the application URL does not change the link |
| Visualization.ColormapParams | openchemistry/_visualization.py:95-103 | colors (with the custom map name) and colour points are copied exactly when present and not null |
| Visualization.OpacitymapParams | openchemistry/_visualization.py:105-112 | opacities and opacity points are copied exactly when present and not null |
| Visualization.TransferFunctionParams | openchemistry/_visualization.py:77-114 | a missing or non-dictionary transfer function adds no parameters; a colour or opacity map that is not a dictionary fails; otherwise only the viewer's transfer keys, never null |
| Visualization.TransferFunctionRoundTrip | openchemistry/_visualization.py:77-114 | any well-formed transfer parameter set is recovered from the transfer function built from it |
| Visualization.TransferFunctionParamsWellFormed | openchemistry/_visualization.py:95-112 | the parameters produced are always well-formed: colors and the custom map name come together |
| Visualization.FixedParamsShape | openchemistry/_visualization.py:17-26 | the nine fixed viewer settings are always present and never clash with transfer keys |
| Visualization.ShowParams | openchemistry/_visualization.py:17-28 | the viewer parameters are the fixed settings plus the transfer parameters, failing exactly when the transfer function is malformed |
| Visualization.ShowParamsKeepArgs | openchemistry/_visualization.py:17-28 | every `show` argument can be read back from the parameters |
| Visualization.OrbitalsShowArgs | openchemistry/_visualization.py:203-205 | the orbital view passes its viewer, volume, isosurface, menu, orbital, iso value and transfer function, and leaves spectrum, mode and play at their defaults |
| Visualization.OrbitalsShowQuiet | openchemistry/_visualization.py:203-205 | an orbital view never shows a spectrum or plays a mode |
| Visualization.ViewerUrl | openchemistry/_visualization.py:63-69 | a provider without a URL raises; otherwise the link is the provider URL, followed by `?` and the encoded parameters exactly when parameters were set |
| Visualization.ModeRows | openchemistry/_visualization.py:174-197 | the table is built iff both columns are lists and every frequency, and every intensity when they are used, is something `float()` accepts without a `TypeError`; it then has one row per frequency, numbered from 0, paired with its intensity only when the intensity list has the same length; otherwise the error names the non-list column, or the first row whose frequency (checked first) or intensity raises |
| Visualization.OrbitalsData | openchemistry/_visualization.py:207-213 | orbital data is exactly the orbitals and properties of the CJSON; a missing one raises a key error naming it |
| Visualization.PropertiesData | openchemistry/_visualization.py:228-229 | property data is the CJSON's properties, or an empty dictionary |
| Models.FetchModelQuery | openchemistry/_model.py:19-31 | the query holds the encoded input parameters and the image name normalised to `repository:tag`; a malformed name is an error |
| Models.FetchModelQueryDefaultTag | openchemistry/_model.py:19-31 | a bare repository and its `:latest` name look up the same models |
| Models.FetchModel | openchemistry/_model.py:19-31 | the first stored result is returned, or none when there are no results |
| Models.PendingModelBody | openchemistry/_model.py:38-62 | the pending record is public, flagged pending, holds the input parameters and the parsed image, and names the notebook when there is one |
| Models.SubmitModel | openchemistry/_model.py:64-98 | the launch trains exactly the given model on the parsed image with the run parameters (empty when not given), naming the cluster only when a non-empty id is given |
| Models.ModelImagesAgree | openchemistry/_model.py:19-98 | the pending record, the training launch and the lookup query name the same image |
| Models.ModelResult | openchemistry/_model.py:100-144 | the result is pending iff `properties.pending` is truthy; missing properties read as empty; a record without an id is an error |
| Models.PendingBodyIsPending | openchemistry/_model.py:38-116 | a freshly created pending record reads back as pending, and one whose properties were replaced by results does not |
| Models.PropertiesView | openchemistry/_model.py:148-155 | the properties view is created on first use and reused afterwards; other views are untouched |
| Models.PropertiesViewReused | openchemistry/_model.py:148-155 | asking for the properties view twice gives the same object and changes nothing |
| CclibIo.Lengths | openchemistry/io/utils.py:21-30 | one length per row |
| CclibIo.ConcatLength | openchemistry/io/utils.py:40-45 | the flattened list holds as many values as all the rows together |
| CclibIo.ConcatUniformAt | openchemistry/io/utils.py:40-45 | in a flattened matrix with rows of width w, entry (k, j) sits at position k·w + j |
| CclibIo.ShellType | openchemistry/io/utils.py:2-15 | the shell code is the position of the lower-cased label in `s p d f g h i k l m n o`, and unknown labels have none |
| CclibIo.ShellTypeIgnoresCase | openchemistry/io/utils.py:27 | shell labels are case-insensitive |
| CclibIo.AtomShells | openchemistry/io/utils.py:21-22 | every shell is attributed to an atom of the basis |
| CclibIo.AtomShellsOrdered | openchemistry/io/utils.py:21-26 | shells are listed atom by atom, so the shell-to-atom map never decreases |
| CclibIo.FlattenShells | openchemistry/io/utils.py:21-38 | an unknown shell label fails; otherwise one primitive count, atom and shell code per shell, and as many exponents and coefficients as primitives altogether |
| CclibIo.ConvertBasis | openchemistry/io/utils.py:1-38 | the conversion fails iff some atom has a shell with an unknown label; otherwise there is one entry per shell of the basis |
| CclibIo.AtomShellsComplete | openchemistry/io/utils.py:21-22 | every shell of every atom appears, tagged with its atom |
| CclibIo.AtomShellsSound | openchemistry/io/utils.py:21-22 | nothing but a shell of an atom of the basis, tagged with that atom, appears |
| CclibIo.UnknownShellListed | openchemistry/io/utils.py:21-27 | the basis has a shell with an unknown label iff the shell listing the conversion walks through has one |
| CclibIo.ConvertBasisShape | openchemistry/io/utils.py:1-38 | a converted basis has parallel per-shell arrays, an ordered in-range atom map and matching exponent and coefficient counts |
| CclibIo.FlattenRoundTrip | openchemistry/io/utils.py:21-38 | the flat CJSON basis can be cut back into exactly the original shells (labels lower-cased) |
| CclibIo.MoCoefficients | openchemistry/io/utils.py:40-45 | only the last coefficient set is kept, flattened orbital by orbital; no sets at all is an error |
| CclibIo.MoCoefficientsLayout | openchemistry/io/utils.py:40-45 | coefficient j of orbital k lands at position k·n + j |
| CclibIo.VibrationalDisplacements | openchemistry/io/utils.py:47-51 | one flat displacement list per mode, holding all of that mode's values |
| CclibIo.DisplacementLayout | openchemistry/io/utils.py:47-51 | coordinate x of atom i in a mode lands at position 3·i + x |
| Psi4Reader.SetIn | openchemistry/io/psi4.py:29 | writing a key into a section creates the section when missing, fails when it exists and is not a dictionary, and changes nothing else |
| Psi4Reader.AddBasis | openchemistry/io/psi4.py:22-24 | when a basis is present the converted basis set replaces `basisSet`, failing on an unknown shell label; nothing else changes |
| Psi4Reader.Occupations | openchemistry/io/psi4.py:42-44 | orbitals up to the HOMO are doubly occupied and the rest empty, one entry per orbital |
| Psi4Reader.OccupationsHoldElectrons | openchemistry/io/psi4.py:42-44 | the occupations sum to 2·(homo+1) electrons |
| Psi4Reader.OccupationsMatchHomo | openchemistry/io/psi4.py:42-44 | for an even electron count the reader's HOMO and the client's HOMO agree, and the occupations hold every electron |
| Psi4Reader.AddOrbitals | openchemistry/io/psi4.py:27-44 | an empty list of coefficient or energy sets fails; nothing outside `orbitals` changes |
| Psi4Reader.AddOrbitalsContents | openchemistry/io/psi4.py:27-44 | the last coefficient and energy sets, the electron count and (for a single HOMO) the occupations end up in `orbitals`; without a single HOMO the occupations are left as they were |
| Psi4Reader.SetOptional | openchemistry/io/psi4.py:27-37 | an absent attribute leaves the document alone; a present one is written into its section |
| Psi4Reader.SetCoefficients | openchemistry/io/psi4.py:27-29 | the flattened last coefficient set replaces `moCoefficients`; an empty list of sets fails |
| Psi4Reader.SetEnergies | openchemistry/io/psi4.py:32-34 | the last energy set replaces `energies`; an empty list of sets fails |
| Psi4Reader.Ones | openchemistry/io/psi4.py:58 | placeholder intensities are all one |
| Psi4Reader.ModeNumbers | openchemistry/io/psi4.py:60 | placeholder modes are numbered from 1 |
| Psi4Reader.AddPlaceholders | openchemistry/io/psi4.py:56-60 | when frequencies exist, missing intensities and modes are filled with placeholders of the same length, and given ones are kept; a `vibrations` value that is not a dictionary fails only where the source would write into it; nothing else changes |
| Psi4Reader.AddVibrations | openchemistry/io/psi4.py:47-60 | nothing outside `vibrations` changes |
| Psi4Reader.AddVibrationsContents | openchemistry/io/psi4.py:47-60 | frequencies and flattened displacements are stored, and intensities and modes are present afterwards, placeholders of the frequencies' length where the document had none |
| Psi4Reader.AddMetadata | openchemistry/io/psi4.py:64-71 | basis set, functional and the first method are stored lower-cased; with no methods the theory is left as it was |
| Psi4Reader.AddEnergy | openchemistry/io/psi4.py:74-77 | the total energy is the last SCF energy converted to J/mol; nothing outside `properties` changes |
| Psi4Reader.ReadKeepsOrbitals | openchemistry/io/psi4.py:9-79 | later stages never touch the orbitals written by the orbital stage |
| Psi4Reader.KeepsSection | openchemistry/io/psi4.py:9-79 | a stage that changes one section leaves every other section as it was |
| Psi4Reader.ReadOccupations | openchemistry/io/psi4.py:39-44 | a single-HOMO output yields occupations in the final document |
| Psi4Reader.ReadNoOccupations | openchemistry/io/psi4.py:39-44 | with several HOMOs no occupations are invented |
| Psi4Reader.ReadEnergies | openchemistry/io/psi4.py:32-34 | the final document's orbital energies are the last energy set |
| Psi4Reader.ReadPlaceholderIntensities | openchemistry/io/psi4.py:47-60 | a read output always has an intensity column as long as its frequency column, so the normal-mode table pairs every row |
| Psi4Reader.ReadEmptySetsFail | openchemistry/io/psi4.py:27-34 | an empty coefficient or energy list makes the read fail |
| Psi4Reader.Read | openchemistry/io/psi4.py:9-79 | the read touches only the basis, orbitals, vibrations, metadata and properties sections, and fails on a basis with an unknown shell label |

## Left out

- Asynchronous task chaining (Celery signatures, `chain`), HTTP transport and the cluster scheduler are not modelled. Their effects are a pure store value (`Store`) or function parameters.
- Floating point is left out. This covers the gigabyte rounding of image sizes in the pull and list taskflows and the `%.2f` formatting of the vibration and property tables. A string entry of the vibration table is kept as given rather than parsed to a float or to `nan`. The eV-to-J/mol factor is the parameter `toJoulePerMole`, because `openchemistry/io/constants.py` is not part of this model.
- `_cleanup_cclib_cjson` is left out: `openchemistry/io/utils.py` as given does not define it. The reader starts from the document that cclib produced.
- cclib's and Avogadro's own parsing and file writing are foreign code. The reader receives cclib's attributes as optional values. The `numpy` flatten of a mode is modelled as concatenating the atom rows.
- Jinja rendering is left out. This covers the plug-ins' input-file writers for the `oc.psi4.j2` and `oc.nw.j2` templates, and `compose_equation` in `openchemistry/recipes.py`. The model keeps the parameters passed to the templates (`Plugins.Psi4Input`).
- Lower- and upper-casing are modelled for ASCII letters only. Unicode case mapping is out of scope.
- Environment variables (`OC_NWCHEM_PATH`, `OC_ACCOUNT`, `GIRDER_HOST`, `OC_SITE`) and the open notebook are parameters.
- The legacy NWChem flow in `taskflows/openchemistry/nwchem` is not part of this model. Only the plug-in entry points listed in the table are modelled.
- Notebook tagging of found calculations (the PATCH of `notebooks`) is a side effect with no result and is not modelled. `calculations.index` is modelled by position. The store is read afresh for every pair (`CalcStore` answers per position), so what a lookup returns after an earlier pair's post is a parameter and is not derived from that post. The position model agrees with `index` whenever posts yield fresh ids (`Calculations.FreshCreations`), and `Calculations.ForceCreatesAll` proves the pending ids distinct under that assumption.
- `_fetch_calculation` in `openchemistry/public_api.py` is imported from a module that does not define it. The public API's calculation lookup is therefore the parameter `fetchCalc`.
- Content hashing, `urllib.parse.urlencode` and `json.dumps` followed by `quote` are parameters.
- The SVG fetch, `generate_3d`, notebook display objects, the experimental-spectrum lookup, and the property and geometry Markdown tables are left out: they are display or I/O only.
- `Visualization.Column`: a non-list value in the frequency or intensity column is an error. The source would accept any iterable there.
- `PendingCalculationResultWrapper`, `PendingModelResultWrapper` and `AttributeInterceptor` are attribute-forwarding proxies with no logic of their own. `Models.ModelResult` records the pending flag and taskflow id that they carry.
- `postprocess_description` in `openchemistry_taskflow.py` is outside the modelled core.
- Templates.PostprocessTemplate: the error for a flagged item without exactly one file is `WrongFileCount` with the item's name and count. The source builds that message by adding an integer to a string, so Python raises a `TypeError` at that point instead. Ingestion stops at the same item either way.
- The bare `except` around `submit_job` in `submit_template` only prints the traceback, so it is not modelled.
- The `singularity build` and `docker inspect` subprocesses and the Shifter image gateway are the host parameter of the pull and list jobs.
- The image sizes the listing script reports are integers and are modelled as such: `os.path.getsize` for singularity, the inspected size for docker, 0 for shifter. Only the taskflows' conversion of sizes to gigabytes rounded to two places is floating point and is left out.
- The column layout of `shifterimg` output is taken as the source reads it (the sixth word names the image). The tool's own formatting is not modelled.
- The `start` tasks of the container pull and list taskflows resolve their cluster as `Store.ResolveCluster` states. The folder creation, script upload and job chaining that follow are store I/O and are not modelled.
- The `monitor` test of whether a result has `_properties` holding a dictionary, and the unwrapping of an `AttributeInterceptor`, are folded into the optional map each result carries.

## Findings

| source | as written | input that shows it | evidently intended | confidence | as-written member | corrected member |
|---|---|---|---|---|---|---|
| openchemistry/api.py:15-19 | The InChIKey test checks the length (27), the dash at index 25, and the pattern `^[0-9A-Z-]+$`. Python's `$` also matches just before a final newline. | 25 letters `A`, then `-`, then a newline: length 27, dash at index 25, the pattern matches | all 27 characters are key characters: upper-case letters, digits or `-` | not executed | Lookup.InchiKeyNewlineAccepted, with Lookup.FindMolecule and Lookup.PublicFindStructure using the test as written | Lookup.IsInchiKey, used by Lookup.FindMoleculeCorrected and Lookup.PublicFindStructureCorrected; Lookup.InchiKeyTestsDiffer, Lookup.FindMoleculeCorrectionDiffers and Lookup.PublicFindStructureCorrectionDiffers state where they differ |
